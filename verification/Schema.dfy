/** benchmark/schema.py: task contracts, and the seeded support state they start from. */
module Schema {
  import opened Json

  datatype ExpectedAction = ExpectedAction(service: string, operation: string, arguments: Dict)

  datatype ForbiddenAction =
    ForbiddenAction(service: string, operation: string, reason: string, arguments: Dict)

  /** A tool call: what the agent asks for, and what the scorer looks at. */
  datatype ToolCall = ToolCall(service: string, operation: string, arguments: Dict)

  /** The entities of one collection, by id. */
  type Table = map<string, Dict>

  /** tool_environment/state.py: the five collections of the support state. */
  datatype World = World(customers: Table, orders: Table, refunds: Table, replacements: Table, tickets: Table)

  function TableJson(t: Table): Json {
    Obj(map id | id in t :: Obj(t[id]))
  }

  const COLLECTIONS: set<string> := {"customers", "orders", "refunds", "replacements", "tickets"}

  function Part(w: World, collection: string): Table {
    match collection
    case "customers" => w.customers
    case "orders" => w.orders
    case "refunds" => w.refunds
    case "replacements" => w.replacements
    case _ => w.tickets
  }

  /** `SupportState.snapshot`. */
  function Snapshot(w: World): Json {
    Obj(map c | c in COLLECTIONS :: TableJson(Part(w, c)))
  }

  datatype Task = Task(
    id: string,
    input: string,
    initial: World,
    expected: seq<ExpectedAction>,
    forbidden: seq<ForbiddenAction>,
    expectedFinal: Dict,
    tags: seq<string>)
}
