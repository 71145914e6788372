/**
 * The content entities served by the backend and rendered by the home page.
 * Ids are opaque strings (the backend draws them from uuid4); prices are
 * whole rupees.
 */
module Content {

  datatype MenuItem = MenuItem(
    id: string,
    name: string,
    price: int,
    category: string,
    img: string,
    desc: string)

  datatype Review = Review(
    id: string,
    name: string,
    rating: int,
    text: string,
    avatar: string,
    kind: string)      // the `type` field: "customer" or "blogger"

  datatype TimelineEntry = TimelineEntry(
    year: int,
    title: string,
    text: string,
    img: string)

  datatype Special = Special(
    name: string,
    price: int,
    desc: string,
    img: string)

  datatype Video = Video(url: string, caption: string)

  datatype Assets = Assets(menuPdfUrl: string)

  /** The category keys of the menu, in the order the menu tabs show them. */
  const CategoryKeys: seq<string> := ["classic", "specials", "sides", "drinks", "desserts"]
}
