/** The three append-only tables of the farm's spreadsheet, as typed records.
    Dates are day numbers (already parsed), money is in cents. */
module Records {

  /** A calendar day, as a day number. */
  type Date = int

  /** One row of the Daily_Log table. */
  datatype DailyEntry = DailyEntry(date: Date, eggs: int, feedBags: int, notes: string)

  /** The two payment states the sales form offers. */
  datatype PaymentStatus = Paid | Pending

  /** One row of the Sales table; `price` is the Total_Price column in cents. */
  datatype SaleEntry = SaleEntry(date: Date, customer: string, dozens: int, price: int, status: PaymentStatus)

  /** One row of the Flock table. The action is the free text stored in the sheet. */
  datatype FlockEntry = FlockEntry(date: Date, action: string, quantity: int, reason: string)

  /** The two choices of the flock form's action box. */
  datatype FlockAction = AddBirds | RemoveBirds

  function ActionLabel(a: FlockAction): string
  {
    match a
    case AddBirds => "Add Birds (+)"
    case RemoveBirds => "Remove Birds (-)"
  }

  function StatusLabel(s: PaymentStatus): string
  {
    match s
    case Paid => "Paid"
    case Pending => "Pending"
  }

  // What the dashboard reads of each table. Every other column is written by
  // the forms but never read back.

  /** A Daily_Log row as the dashboard reads it: its Date and Eggs_Collected. */
  datatype EggCount = EggCount(date: Date, eggs: int)

  /** A Sales row as the dashboard reads it: its Date and Total_Price (cents). */
  datatype SaleAmount = SaleAmount(date: Date, price: int)

  /** A Flock row as the dashboard's loop reads it: its Action and Quantity. */
  datatype FlockChange = FlockChange(action: string, quantity: int)

  function EggCountOf(e: DailyEntry): EggCount { EggCount(e.date, e.eggs) }
  function SaleAmountOf(e: SaleEntry): SaleAmount { SaleAmount(e.date, e.price) }
  function FlockChangeOf(e: FlockEntry): FlockChange { FlockChange(e.action, e.quantity) }

  function DailyDate(e: EggCount): int { e.date }
  function SaleDate(e: SaleAmount): int { e.date }
}
