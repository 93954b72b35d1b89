/**
  The tables a company backup covers, their scopes and foreign keys, and the two orders a restore
  works in.  A table is its place in `BACKUP_PLAN`, the list of the DELETEs: lines, then documents,
  then masters, and the company last.
 */
module BackupTables {

  const TABLES: nat := 69

  type Table = t: nat | t < 69 witness 0

  const PRODUCT_PRODUCT_CATEGORIES: Table := 0
  const WAREHOUSE_TRANSFER_LINES: Table := 1
  const QUOTATION_LINES: Table := 2
  const SALES_INVOICE_LINES: Table := 3
  const SALES_RETURN_LINES: Table := 4
  const PURCHASE_INVOICE_LINES: Table := 5
  const PURCHASE_ORDER_LINES: Table := 6
  const PURCHASE_RETURN_LINES: Table := 7
  const BOM_LINES: Table := 8
  const WORK_ORDER_CONSUMPTIONS: Table := 9
  const PAYROLL_LINES: Table := 10
  const PRODUCT_UNITS: Table := 11
  const POS_PAYMENTS: Table := 12
  const POS_SHIFTS: Table := 13
  const SALES_RETURNS: Table := 14
  const SALES_INVOICES: Table := 15
  const QUOTATIONS: Table := 16
  const PURCHASE_RETURNS: Table := 17
  const PURCHASE_INVOICES: Table := 18
  const PURCHASE_ORDERS: Table := 19
  const RECEIPT_VOUCHERS: Table := 20
  const PAYMENT_VOUCHERS: Table := 21
  const JOURNAL_ENTRIES: Table := 22
  const TRANSACTIONS: Table := 23
  const ACCOUNTING_PERIODS: Table := 24
  const FIXED_ASSETS: Table := 25
  const STOCK_MOVEMENTS: Table := 26
  const INVENTORY_LAYERS: Table := 27
  const STOCK_ADJUSTMENTS: Table := 28
  const WAREHOUSE_TRANSFERS: Table := 29
  const ATTENDANCE: Table := 30
  const LEAVES: Table := 31
  const END_OF_SERVICE: Table := 32
  const PAYROLL_RUNS: Table := 33
  const TASKS: Table := 34
  const ACTIVITIES: Table := 35
  const LEADS: Table := 36
  const OPPORTUNITIES: Table := 37
  const AI_CHAT_MESSAGES: Table := 38
  const AI_CHAT_SESSIONS: Table := 39
  const AI_JOB_ITEMS: Table := 40
  const AI_JOB_BATCHES: Table := 41
  const AUDIT_LOGS: Table := 42
  const STOCK: Table := 43
  const CUSTOMERS: Table := 44
  const SUPPLIERS: Table := 45
  const WORK_ORDERS: Table := 46
  const BOMS: Table := 47
  const PRODUCTS: Table := 48
  const PRODUCT_CATEGORIES: Table := 49
  const PRODUCT_TYPES: Table := 50
  const EMPLOYEES: Table := 51
  const DEPARTMENTS: Table := 52
  const PAYROLL_COMPONENTS: Table := 53
  const WAREHOUSES: Table := 54
  const BRANCHES: Table := 55
  const CASH_BOXES: Table := 56
  const COST_CENTERS: Table := 57
  const DEFAULT_ACCOUNTS: Table := 58
  const ACCOUNTS: Table := 59
  const CURRENCIES: Table := 60
  const UNITS: Table := 61
  const VAT_SETTINGS: Table := 62
  const DOCUMENT_SEQUENCES: Table := 63
  const USERS: Table := 64
  const ROLES: Table := 65
  const SETTINGS: Table := 66
  const TAX_PERIODS: Table := 67
  const COMPANIES: Table := 68

  /** Which rows of a table belong to a company: by company column, by own id, or through the parent row. */
  datatype Scope = OfCompany | Single | ChildOf(parent: Table)

  function ScopeOf(t: Table): Scope
  {
    match t
    case 0 => ChildOf(PRODUCTS)
    case 1 => ChildOf(WAREHOUSE_TRANSFERS)
    case 2 => ChildOf(QUOTATIONS)
    case 3 => ChildOf(SALES_INVOICES)
    case 4 => ChildOf(SALES_RETURNS)
    case 5 => ChildOf(PURCHASE_INVOICES)
    case 6 => ChildOf(PURCHASE_ORDERS)
    case 7 => ChildOf(PURCHASE_RETURNS)
    case 8 => ChildOf(BOMS)
    case 9 => ChildOf(WORK_ORDERS)
    case 10 => ChildOf(PAYROLL_RUNS)
    case 68 => Single
    case _ => OfCompany
  }

  /** What deleting a row does to the rows that name it: delete them, null their columns, or refuse. */
  datatype OnDelete = Cascade | SetNull | Block

  datatype ForeignKey = ForeignKey(to: Table, onDelete: OnDelete)

  /**
    The schema's foreign keys, apart from two kinds that follow from the scope: the company column and
    a line's own document, both ON DELETE CASCADE.  RESTRICT and NO ACTION both block.
   */
  function ForeignKeys(t: Table): set<ForeignKey>
  {
    match t
    case 0 => {ForeignKey(PRODUCT_CATEGORIES, Cascade)}  // product_product_categories
    case 1 => {ForeignKey(PRODUCTS, Block)}  // warehouse_transfer_lines
    case 2 => {ForeignKey(PRODUCTS, Block)}  // quotation_lines
    case 3 => {ForeignKey(PRODUCTS, Cascade)}  // sales_invoice_lines
    case 4 => {ForeignKey(PRODUCTS, Block)}  // sales_return_lines
    case 5 => {ForeignKey(PRODUCTS, Cascade)}  // purchase_invoice_lines
    case 6 => {ForeignKey(PRODUCTS, Block)}  // purchase_order_lines
    case 7 => {ForeignKey(PRODUCTS, Block)}  // purchase_return_lines
    case 8 => {ForeignKey(PRODUCTS, Block)}  // bom_lines
    case 9 => {ForeignKey(PRODUCTS, Block)}  // work_order_consumptions
    case 10 => {ForeignKey(EMPLOYEES, Block), ForeignKey(EMPLOYEES, Cascade)}  // payroll_lines
    case 11 => {ForeignKey(PRODUCTS, Cascade), ForeignKey(UNITS, Block)}  // product_units
    case 12 => {ForeignKey(POS_SHIFTS, Cascade), ForeignKey(SALES_INVOICES, Cascade),  // pos_payments
      ForeignKey(CASH_BOXES, Block), ForeignKey(USERS, SetNull)}
    case 13 => {ForeignKey(CASH_BOXES, Block), ForeignKey(USERS, Block), ForeignKey(USERS, SetNull)}  // pos_shifts
    case 14 => {ForeignKey(CUSTOMERS, Block), ForeignKey(USERS, SetNull)}  // sales_returns
    case 15 => {ForeignKey(POS_SHIFTS, SetNull), ForeignKey(CUSTOMERS, Block), ForeignKey(USERS, SetNull)}  // sales_invoices
    case 16 => {ForeignKey(CUSTOMERS, Block), ForeignKey(USERS, SetNull)}  // quotations
    case 17 => {ForeignKey(SUPPLIERS, Block), ForeignKey(USERS, SetNull)}  // purchase_returns
    case 18 => {ForeignKey(SUPPLIERS, Block), ForeignKey(USERS, SetNull)}  // purchase_invoices
    case 19 => {ForeignKey(SUPPLIERS, Block), ForeignKey(USERS, SetNull)}  // purchase_orders
    case 20 => {ForeignKey(CUSTOMERS, Block), ForeignKey(USERS, SetNull)}  // receipt_vouchers
    case 21 => {ForeignKey(SUPPLIERS, Block), ForeignKey(USERS, SetNull)}  // payment_vouchers
    case 22 => {ForeignKey(TRANSACTIONS, Cascade), ForeignKey(ACCOUNTS, Block), ForeignKey(USERS, SetNull)}  // journal_entries
    case 23 => {ForeignKey(USERS, SetNull)}  // transactions
    case 25 => {ForeignKey(USERS, SetNull)}  // fixed_assets
    case 26 => {ForeignKey(PRODUCTS, Block), ForeignKey(WAREHOUSES, Block), ForeignKey(USERS, SetNull)}  // stock_movements
    case 27 => {ForeignKey(PRODUCTS, Cascade), ForeignKey(WAREHOUSES, SetNull)}  // inventory_layers
    case 28 => {ForeignKey(PRODUCTS, Block), ForeignKey(WAREHOUSES, Block), ForeignKey(USERS, SetNull)}  // stock_adjustments
    case 29 => {ForeignKey(WAREHOUSES, Block), ForeignKey(USERS, SetNull)}  // warehouse_transfers
    case 30 => {ForeignKey(EMPLOYEES, Block), ForeignKey(EMPLOYEES, Cascade), ForeignKey(USERS, SetNull)}  // attendance
    case 31 => {ForeignKey(EMPLOYEES, Block), ForeignKey(EMPLOYEES, Cascade), ForeignKey(USERS, SetNull)}  // leaves
    case 32 => {ForeignKey(EMPLOYEES, Block), ForeignKey(EMPLOYEES, Cascade), ForeignKey(USERS, SetNull)}  // end_of_service
    case 33 => {ForeignKey(USERS, SetNull)}  // payroll_runs
    case 34 => {ForeignKey(LEADS, SetNull), ForeignKey(OPPORTUNITIES, SetNull), ForeignKey(CUSTOMERS, Block),  // tasks
      ForeignKey(CUSTOMERS, SetNull), ForeignKey(USERS, Block), ForeignKey(USERS, SetNull)}
    case 35 => {ForeignKey(LEADS, SetNull), ForeignKey(OPPORTUNITIES, SetNull), ForeignKey(CUSTOMERS, Block),  // activities
      ForeignKey(CUSTOMERS, SetNull), ForeignKey(USERS, Block), ForeignKey(USERS, SetNull)}
    case 36 => {ForeignKey(USERS, Block), ForeignKey(USERS, SetNull)}  // leads
    case 37 => {ForeignKey(LEADS, SetNull), ForeignKey(CUSTOMERS, Block), ForeignKey(CUSTOMERS, SetNull),  // opportunities
      ForeignKey(USERS, Block), ForeignKey(USERS, SetNull)}
    case 38 => {ForeignKey(AI_CHAT_SESSIONS, Cascade)}  // ai_chat_messages
    case 39 => {ForeignKey(USERS, Cascade)}  // ai_chat_sessions
    case 40 => {ForeignKey(AI_JOB_BATCHES, Cascade)}  // ai_job_items
    case 41 => {ForeignKey(AI_CHAT_SESSIONS, SetNull), ForeignKey(USERS, Cascade)}  // ai_job_batches
    case 42 => {ForeignKey(USERS, SetNull)}  // audit_logs
    case 43 => {ForeignKey(PRODUCTS, Block), ForeignKey(WAREHOUSES, Block)}  // stock
    case 44 => {ForeignKey(USERS, SetNull)}  // customers
    case 45 => {ForeignKey(USERS, SetNull)}  // suppliers
    case 46 => {ForeignKey(PRODUCTS, Block), ForeignKey(EMPLOYEES, SetNull), ForeignKey(USERS, SetNull)}  // work_orders
    case 47 => {ForeignKey(PRODUCTS, Block), ForeignKey(USERS, SetNull)}  // boms
    case 48 => {ForeignKey(PRODUCT_TYPES, SetNull), ForeignKey(USERS, SetNull)}  // products
    case 49 => {ForeignKey(PRODUCT_CATEGORIES, Cascade)}  // product_categories
    case 50 => {ForeignKey(ACCOUNTS, Block), ForeignKey(USERS, SetNull)}  // product_types
    case 51 => {ForeignKey(DEPARTMENTS, SetNull), ForeignKey(USERS, SetNull)}  // employees
    case 52 => {ForeignKey(USERS, SetNull)}  // departments
    case 53 => {ForeignKey(ACCOUNTS, Block), ForeignKey(USERS, SetNull)}  // payroll_components
    case 54 => {ForeignKey(USERS, SetNull)}  // warehouses
    case 55 => {ForeignKey(USERS, SetNull)}  // branches
    case 56 => {ForeignKey(ACCOUNTS, Block), ForeignKey(USERS, SetNull)}  // cash_boxes
    case 57 => {ForeignKey(COST_CENTERS, Cascade)}  // cost_centers
    case 58 => {ForeignKey(ACCOUNTS, Block)}  // default_accounts
    case 59 => {ForeignKey(ACCOUNTS, Cascade), ForeignKey(USERS, SetNull)}  // accounts
    case 60 => {ForeignKey(USERS, SetNull)}  // currencies
    case 63 => {ForeignKey(USERS, SetNull)}  // document_sequences
    case 64 => {ForeignKey(BRANCHES, SetNull)}  // users
    case 68 => {ForeignKey(USERS, SetNull)}  // companies
    case _ => {}
  }

  /** `BACKUP_INSERT_ORDER`: the table of the `i`-th group of INSERTs. */
  function InsertTable(i: nat): Table
  {
    match i
    case 0 => COMPANIES case 1 => CURRENCIES case 2 => UNITS case 3 => BRANCHES case 4 => ROLES case 5 => USERS
    case 6 => DEPARTMENTS case 7 => ACCOUNTS case 8 => CASH_BOXES case 9 => COST_CENTERS
    case 10 => VAT_SETTINGS case 11 => DEFAULT_ACCOUNTS case 12 => DOCUMENT_SEQUENCES case 13 => SETTINGS
    case 14 => TAX_PERIODS case 15 => PAYROLL_COMPONENTS case 16 => PRODUCT_TYPES case 17 => PRODUCT_CATEGORIES
    case 18 => WAREHOUSES case 19 => PRODUCTS case 20 => PRODUCT_UNITS case 21 => BOMS case 22 => EMPLOYEES
    case 23 => WORK_ORDERS case 24 => CUSTOMERS case 25 => SUPPLIERS case 26 => LEADS case 27 => OPPORTUNITIES
    case 28 => TASKS case 29 => ACTIVITIES case 30 => POS_SHIFTS case 31 => QUOTATIONS
    case 32 => SALES_INVOICES case 33 => POS_PAYMENTS case 34 => SALES_RETURNS case 35 => PURCHASE_ORDERS
    case 36 => PURCHASE_INVOICES case 37 => PURCHASE_RETURNS case 38 => RECEIPT_VOUCHERS
    case 39 => PAYMENT_VOUCHERS case 40 => TRANSACTIONS case 41 => JOURNAL_ENTRIES
    case 42 => ACCOUNTING_PERIODS case 43 => FIXED_ASSETS case 44 => STOCK case 45 => STOCK_MOVEMENTS
    case 46 => INVENTORY_LAYERS case 47 => STOCK_ADJUSTMENTS case 48 => WAREHOUSE_TRANSFERS
    case 49 => ATTENDANCE case 50 => LEAVES case 51 => PAYROLL_RUNS case 52 => END_OF_SERVICE
    case 53 => AI_CHAT_SESSIONS case 54 => AI_CHAT_MESSAGES case 55 => AI_JOB_BATCHES case 56 => AI_JOB_ITEMS
    case 57 => AUDIT_LOGS case 58 => PRODUCT_PRODUCT_CATEGORIES case 59 => WAREHOUSE_TRANSFER_LINES
    case 60 => QUOTATION_LINES case 61 => SALES_INVOICE_LINES case 62 => SALES_RETURN_LINES
    case 63 => PURCHASE_INVOICE_LINES case 64 => PURCHASE_ORDER_LINES case 65 => PURCHASE_RETURN_LINES
    case 66 => BOM_LINES case 67 => WORK_ORDER_CONSUMPTIONS
    case _ => PAYROLL_LINES
  }

  /** A table's place among the INSERTs. */
  function InsertRank(t: Table): nat
  {
    match t
    case 0 => 58 case 1 => 59 case 2 => 60 case 3 => 61 case 4 => 62 case 5 => 63 case 6 => 64 case 7 => 65
    case 8 => 66 case 9 => 67 case 11 => 20 case 12 => 33 case 13 => 30 case 14 => 34 case 15 => 32
    case 16 => 31 case 17 => 37 case 18 => 36 case 19 => 35 case 20 => 38 case 21 => 39 case 22 => 41
    case 23 => 40 case 24 => 42 case 25 => 43 case 26 => 45 case 27 => 46 case 28 => 47 case 29 => 48
    case 30 => 49 case 31 => 50 case 32 => 52 case 33 => 51 case 34 => 28 case 35 => 29 case 36 => 26
    case 37 => 27 case 38 => 54 case 39 => 53 case 40 => 56 case 41 => 55 case 42 => 57 case 43 => 44
    case 44 => 24 case 45 => 25 case 46 => 23 case 47 => 21 case 48 => 19 case 49 => 17 case 50 => 16
    case 51 => 22 case 52 => 6 case 53 => 15 case 54 => 18 case 55 => 3 case 56 => 8 case 57 => 9 case 58 => 11
    case 59 => 7 case 60 => 1 case 61 => 2 case 62 => 10 case 63 => 12 case 64 => 5 case 65 => 4 case 66 => 13
    case 67 => 14 case 68 => 0
    case _ => 68
  }

  // ---------------------------------------------------------------- both lists respect the schema

  lemma InsertHas(t: Table)
    ensures InsertRank(t) < TABLES && InsertTable(InsertRank(t)) == t
  {
  }

  lemma InsertRanked(i: nat)
    requires i < TABLES
    ensures InsertRank(InsertTable(i)) == i
  {
  }

  /** A key that deletes or blocks leads to a later table of the deletion list, or to the table itself. */
  lemma KeysDeleteForward(t: Table, f: ForeignKey)
    requires f in ForeignKeys(t)
    ensures f.onDelete.SetNull? || f.to == t || t < f.to
  {
  }

  predicate KeyBackward(t: Table, f: ForeignKey)
  {
    f.to == t || f.to == USERS || InsertRank(f.to) < InsertRank(t)
  }

  lemma EarlyKeysBackward(t: Table, f: ForeignKey)
    requires t < 24 && f in ForeignKeys(t)
    ensures KeyBackward(t, f)
  {
  }

  lemma MiddleKeysBackward(t: Table, f: ForeignKey)
    requires 24 <= t < 37 && f in ForeignKeys(t)
    ensures KeyBackward(t, f)
  {
  }

  lemma LateKeysBackward(t: Table, f: ForeignKey)
    requires 37 <= t < 49 && f in ForeignKeys(t)
    ensures KeyBackward(t, f)
  {
  }

  lemma LastKeysBackward(t: Table, f: ForeignKey)
    requires 49 <= t && f in ForeignKeys(t)
    ensures KeyBackward(t, f)
  {
  }

  /** A key leads to an earlier table of the insertion list, to the table itself, or to the users. */
  lemma KeysInsertBackward(t: Table, f: ForeignKey)
    requires f in ForeignKeys(t)
    ensures KeyBackward(t, f)
  {
    if t < 24 {
      EarlyKeysBackward(t, f);
    } else if t < 37 {
      MiddleKeysBackward(t, f);
    } else if t < 49 {
      LateKeysBackward(t, f);
    } else {
      LastKeysBackward(t, f);
    }
  }

  /** Companies, users and branches name other rows only by keys that are nulled; a user names only a branch. */
  lemma EdgeKeys(f: ForeignKey)
    ensures f in ForeignKeys(COMPANIES) ==> f.onDelete.SetNull?
    ensures f in ForeignKeys(USERS) ==> f == ForeignKey(BRANCHES, SetNull)
    ensures f in ForeignKeys(BRANCHES) ==> f.onDelete.SetNull?
  {
  }

  /** The documents that scope lines have a company column; they are deleted after the lines and inserted before. */
  lemma ParentsInPlace(t: Table)
    ensures ScopeOf(t).ChildOf? ==>
              t < ScopeOf(t).parent && InsertRank(ScopeOf(t).parent) < InsertRank(t) &&
              ScopeOf(ScopeOf(t).parent) == OfCompany && ScopeOf(t).parent != USERS
  {
  }

  /** The company is deleted last and inserted first. */
  lemma CompanyIsEdge(t: Table)
    ensures ScopeOf(t).Single? <==> t == COMPANIES
    ensures t != COMPANIES ==> t < COMPANIES && InsertRank(COMPANIES) < InsertRank(t)
    ensures ScopeOf(USERS) == OfCompany && ScopeOf(BRANCHES) == OfCompany
  {
  }
}
