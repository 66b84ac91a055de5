/** The fixed product table the backend answers known queries from: an
    ordered list of entries, each an ordered list of shops, each an ordered
    list of items (table order is the order the source's dictionaries keep). */
module Catalog {
  import opened Models

  /** One listed item; its price in cents. */
  datatype CatalogItem = CatalogItem(name: string, price: Cents, url: string)

  /** The items one shop lists for an entry. */
  datatype SiteListing = SiteListing(site: string, items: seq<CatalogItem>)

  /** A table entry: its match key and its shops. */
  datatype Entry = Entry(key: string, sites: seq<SiteListing>)

  const ProductDatabase: seq<Entry> := [
    Entry("sony wh-1000xm5", [
      SiteListing("amazon.com", [
        CatalogItem("Sony WH-1000XM5 Wireless Noise Canceling Headphones - Black", 34999, "https://amazon.com/dp/B09XS7JWHH"),
        CatalogItem("Sony WH-1000XM5 Wireless Headphones - Silver", 35999, "https://amazon.com/dp/B09XS7JWHH")]),
      SiteListing("bestbuy.com", [
        CatalogItem("Sony - WH-1000XM5 Wireless Noise Canceling Over-Ear Headphones - Black", 32999, "https://bestbuy.com/site/sony-wh-1000xm5/6505727.p"),
        CatalogItem("Sony WH-1000XM5 Premium Noise Canceling Wireless Headphones", 39999, "https://bestbuy.com/site/sony-wh-1000xm5/6505728.p")]),
      SiteListing("walmart.com", [
        CatalogItem("Sony WH-1000XM5 Wireless Noise Canceling Headphones, Black", 29800, "https://walmart.com/ip/Sony-WH-1000XM5/395844662"),
        CatalogItem("Sony WH1000XM5/B Premium Wireless Noise Canceling Headphones", 34888, "https://walmart.com/ip/Sony-WH-1000XM5-Premium/395844663")])]),
    Entry("iphone 15 pro", [
      SiteListing("amazon.com", [
        CatalogItem("Apple iPhone 15 Pro (128GB) - Natural Titanium", 99900, "https://amazon.com/dp/B0CHX1W1XY"),
        CatalogItem("Apple iPhone 15 Pro Max (256GB) - Blue Titanium", 119900, "https://amazon.com/dp/B0CHX2RDGX")]),
      SiteListing("bestbuy.com", [
        CatalogItem("Apple - iPhone 15 Pro 128GB - Natural Titanium (Verizon)", 99999, "https://bestbuy.com/site/apple-iphone-15-pro/6418599.p"),
        CatalogItem("Apple iPhone 15 Pro 256GB - Blue Titanium (Unlocked)", 109999, "https://bestbuy.com/site/apple-iphone-15-pro-256/6418600.p")]),
      SiteListing("walmart.com", [
        CatalogItem("Apple iPhone 15 Pro, 128GB, Natural Titanium - Unlocked", 99900, "https://walmart.com/ip/Apple-iPhone-15-Pro/5085896321"),
        CatalogItem("iPhone 15 Pro Max 256GB Blue Titanium - T-Mobile", 119900, "https://walmart.com/ip/iPhone-15-Pro-Max/5085896322")])]),
    Entry("macbook air m2", [
      SiteListing("amazon.com", [
        CatalogItem("Apple 2022 MacBook Air Laptop with M2 chip: 13.6-inch Liquid Retina Display, 8GB RAM, 256GB SSD Storage", 109900, "https://amazon.com/dp/B0B3C2R8MP"),
        CatalogItem("Apple MacBook Air 13-inch M2 Chip 8GB RAM 512GB SSD - Midnight", 129900, "https://amazon.com/dp/B0B3C57RQJ")]),
      SiteListing("bestbuy.com", [
        CatalogItem("Apple - MacBook Air 13.6\" Laptop - Apple M2 chip - 8GB Memory - 256GB SSD - Starlight", 109999, "https://bestbuy.com/site/apple-macbook-air/6509650.p"),
        CatalogItem("MacBook Air 13\" M2 Chip 8GB RAM 512GB SSD - Space Gray", 129999, "https://bestbuy.com/site/apple-macbook-air-512/6509651.p")]),
      SiteListing("walmart.com", [
        CatalogItem("Apple MacBook Air 13.6-inch M2 Chip 8GB RAM 256GB SSD Silver", 104900, "https://walmart.com/ip/Apple-MacBook-Air-M2/1944190984"),
        CatalogItem("Apple 2022 MacBook Air M2 Chip 8GB 512GB SSD 13.6\" Midnight", 124900, "https://walmart.com/ip/MacBook-Air-M2-512GB/1944190985")])]),
    Entry("airpods pro", [
      SiteListing("amazon.com", [
        CatalogItem("Apple AirPods Pro (2nd Generation) Wireless Earbuds with MagSafe Case", 24900, "https://amazon.com/dp/B0BDHWDR12"),
        CatalogItem("Apple AirPods Pro 2nd Gen with USB-C Charging Case", 24999, "https://amazon.com/dp/B0CHWRXH8B")]),
      SiteListing("bestbuy.com", [
        CatalogItem("Apple - AirPods Pro (2nd generation) with MagSafe Case (USB\U{2011}C) - White", 24999, "https://bestbuy.com/site/apple-airpods-pro/6418599.p"),
        CatalogItem("Apple AirPods Pro 2nd Generation Wireless Earbuds - White", 22999, "https://bestbuy.com/site/apple-airpods-pro-2nd/6418600.p")]),
      SiteListing("walmart.com", [
        CatalogItem("Apple AirPods Pro (2nd Generation) with MagSafe Case USB-C", 23900, "https://walmart.com/ip/Apple-AirPods-Pro-2nd/1486319416"),
        CatalogItem("Apple AirPods Pro 2nd Gen Wireless Earbuds with USB-C Case", 24900, "https://walmart.com/ip/AirPods-Pro-USB-C/1486319417")])]),
    Entry("nintendo switch", [
      SiteListing("amazon.com", [
        CatalogItem("Nintendo Switch OLED Model w/ White Joy-Con", 34999, "https://amazon.com/dp/B098RKWHHZ"),
        CatalogItem("Nintendo Switch Console with Neon Blue and Neon Red Joy\U{2011}Con", 29999, "https://amazon.com/dp/B07VGRJDFY")]),
      SiteListing("bestbuy.com", [
        CatalogItem("Nintendo - Switch OLED Model with White Joy-Con", 34999, "https://bestbuy.com/site/nintendo-switch-oled/6464255.p"),
        CatalogItem("Nintendo Switch Console Neon Blue/Red Joy-Con", 29999, "https://bestbuy.com/site/nintendo-switch/6364255.p")]),
      SiteListing("walmart.com", [
        CatalogItem("Nintendo Switch OLED Model Gaming Console White", 34900, "https://walmart.com/ip/Nintendo-Switch-OLED/606787621"),
        CatalogItem("Nintendo Switch Console with Gray Joy\U{2011}Con Controllers", 29988, "https://walmart.com/ip/Nintendo-Switch-Gray/606787622")])])
  ]
}
