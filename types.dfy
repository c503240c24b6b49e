/** The records shared by the inventory store, the pages and the session store
    (src/types/index.ts). Invoice and FileUpload carry no behaviour and are not modelled. */
module Types {

  /** A value that may be absent: `T | null`, `T | undefined`, or an optional property. */
  datatype Option<+T> = None | Some(value: T)

  /** The three roles of the maker/checker workflow. */
  datatype Role = Admin | Maker | Checker

  /** The string the source stores for each role. */
  function RoleName(r: Role): string
  {
    match r
    case Admin => "admin"
    case Maker => "maker"
    case Checker => "checker"
  }

  datatype User = User(
    id: string,
    username: string,
    email: string,
    role: Role,
    name: string,
    avatar: Option<string>)

  /** Product.status; it is set by callers only and never derived from the alerts. */
  datatype Status = Active | Damaged | Expired | LowStock

  /** An instant in milliseconds since the epoch (what `new Date(...)` denotes). */
  type Instant = int

  /** A product. `expiryDate` is the instant its date string denotes; `cost` is a
      JavaScript number on which nothing here computes. */
  datatype Product = Product(
    id: string,
    vendorCode: string,
    category: string,
    description: string,
    count: int,
    cost: real,
    currency: string,
    expiryDate: Instant,
    warehouseStock: int,
    shelfStock: int,
    threshold: int,
    barcode: Option<string>,
    status: Status,
    createdAt: string,
    updatedAt: string,
    createdBy: string,
    approvedBy: Option<string>,
    approved: bool)

  /** Alert.type (`type` is a Dafny keyword, hence `kind`). */
  datatype AlertKind = LowStockAlert | ExpiryWarning | DamagedGoods

  datatype Severity = Low | Medium | High

  /** An alert; the human-readable `message` is not modelled. */
  datatype Alert = Alert(
    id: string,
    kind: AlertKind,
    productId: string,
    severity: Severity,
    createdAt: string,
    acknowledged: bool)
}
