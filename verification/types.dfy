/**
 The records shared by every screen of the affiliate dashboard: sales, marketing
 materials, training tips and the transient new-sale notification.
 */
module Types {

  datatype Option<T> = None | Some(value: T)

  /** The four marketplaces a sale can originate from. */
  datatype Platform = Hotmart | Monetizze | Eduzz | Kiwify

  const AllPlatforms: seq<Platform> := [Hotmart, Monetizze, Eduzz, Kiwify]

  /** Milliseconds since the epoch, read in local time. */
  type Timestamp = int

  /** An amount of money in cents (the app keeps reais as a float). */
  type Cents = int

  /** One commission credited to the affiliate; never mutated once created. */
  datatype Sale = Sale(
    id: string,
    productName: string,
    commission: Cents,
    saleDate: Timestamp,
    platform: Platform)

  datatype MaterialKind = Image | Text

  datatype Material = Material(id: int, kind: MaterialKind, title: string, content: string)

  datatype TrainingTip = TrainingTip(id: int, title: string, content: string)

  /** The new-sale banner. The app stores the message text, which is the
      commission rendered in Brazilian currency format; the model keeps the amount. */
  datatype Notification = Notification(id: int, commission: Cents)

  /** True when every sale carries a non-negative commission, as every generated sale does. */
  predicate NonNegativeCommissions(sales: seq<Sale>)
  {
    forall i :: 0 <= i < |sales| ==> sales[i].commission >= 0
  }

  /** Newest first: the order of the bulk fetch, kept by prepending sales stamped "now". */
  predicate NewestFirst(sales: seq<Sale>)
  {
    forall i, j :: 0 <= i < j < |sales| ==> sales[j].saleDate <= sales[i].saleDate
  }

  /** Oldest first: the order the chart puts the sales of a window in. */
  predicate OldestFirst(sales: seq<Sale>)
  {
    forall i, j :: 0 <= i < j < |sales| ==> sales[i].saleDate <= sales[j].saleDate
  }
}
