/** The kinds of daily work a worker is paid for, and the table of default
    pay amounts per kind. */
module WorkTypes {

  datatype WorkType =
    | Kundi
    | KundiDriver
    | BrickCarry
    | BrickBaking
    | BrickLoadTractor
    | BrickLoadVan
    | TopWork

  /** One row of the default table: the rupee amount, the crew size, and the
      optional flags. A flag the source leaves out of a row is `false` here. */
  datatype Defaults = Defaults(
    amount: int,
    workers: nat,
    perThousand: bool,
    hasDriver: bool,
    hasHalfDay: bool)

  /** The default table. Being a function over the whole enumeration, every
      work type has a row, so looking a type up never fails. */
  function DefaultsOf(w: WorkType): (d: Defaults)
    ensures d.amount > 0 && d.workers > 0
    ensures d.perThousand <==> w == BrickCarry
    ensures d.hasDriver <==> w == BrickLoadTractor || w == BrickLoadVan
    ensures d.hasHalfDay <==> w == TopWork
    ensures d.hasHalfDay ==> d.amount % 2 == 0
  {
    match w
    case Kundi => Defaults(400, 3, false, false, false)
    case KundiDriver => Defaults(500, 1, false, false, false)
    case BrickCarry => Defaults(220, 1, true, false, false)
    case BrickBaking => Defaults(1200, 5, false, false, false)
    case BrickLoadTractor => Defaults(250, 5, false, true, false)
    case BrickLoadVan => Defaults(300, 5, false, true, false)
    case TopWork => Defaults(500, 1, false, false, true)
  }
}
