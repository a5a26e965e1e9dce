/**
 * Schema inference for the CSV loader: which headers become columns, which column type each
 * gets, which table a file goes to, and the column list the table builder declares.
 */
module CreateSchema {
  import opened Seqs
  import opened Text

  datatype ColumnType = IntegerType | DateType | StringType

  /** `{ name, type }` of one column to create. */
  datatype ColumnDefinition = ColumnDefinition(name: string, columnType: ColumnType)

  /** The column builder's calls: `increments`, `integer`, `date` or `string`. */
  datatype ColumnKind = Increments | IntegerColumn | DateColumn | StringColumn

  /** A declared column, with whether `.primary()` and `.notNullable()` were called on it. */
  datatype Column = Column(name: string, kind: ColumnKind, primary: bool, notNullable: bool)

  datatype Table = Table(name: string, columns: seq<Column>)

  /** The auto-increment primary key every table starts with. */
  const IdColumn: Column := Column("id", Increments, true, false)

  predicate IsDataHeader(header: string)
  {
    ToLower(header) != "index"
  }

  /** `h.filter(header => header.toLowerCase() !== 'index')`. */
  function FilterHeaders(headers: seq<string>): (r: seq<string>)
    ensures forall h :: h in r <==> h in headers && ToLower(h) != "index"
    ensures forall h :: multiset(r)[h] == if ToLower(h) == "index" then 0 else multiset(headers)[h]
  {
    FilterMembers(IsDataHeader, headers);
    Filter(IsDataHeader, headers)
  }

  /** Header filtering keeps the order of the headers it keeps. */
  lemma FilterHeadersConcat(a: seq<string>, b: seq<string>)
    ensures FilterHeaders(a + b) == FilterHeaders(a) + FilterHeaders(b)
  {
    FilterConcat(IsDataHeader, a, b);
  }

  /** The table a CSV file goes to: `Organizations` when its path mentions `organizations`. */
  method TableName(filename: string) returns (tableName: string)
    ensures tableName == "Organizations" <==> Contains(filename, "organizations")
    ensures tableName == "Organizations" || tableName == "Customers"
  {
    tableName := "";
    if Contains(filename, "organizations") {
      tableName := "Organizations";
    } else {
      tableName := "Customers";
    }
  }

  /**
   * `generateColumnDefinitions`: one definition per header, in order; `date` in the lower-cased
   * header wins over `number of employees`, and everything else is a string.
   */
  method GenerateColumnDefinitions(headers: seq<string>) returns (definitions: seq<ColumnDefinition>)
    ensures |definitions| == |headers|
    ensures forall i :: 0 <= i < |headers| ==> definitions[i].name == headers[i]
    ensures forall i :: 0 <= i < |headers| ==>
              (definitions[i].columnType == DateType <==> Contains(ToLower(headers[i]), "date"))
    ensures forall i :: 0 <= i < |headers| ==>
              (definitions[i].columnType == IntegerType <==>
                 !Contains(ToLower(headers[i]), "date") && Contains(ToLower(headers[i]), "number of employees"))
    ensures forall i :: 0 <= i < |headers| ==>
              (definitions[i].columnType == StringType <==>
                 !Contains(ToLower(headers[i]), "date") && !Contains(ToLower(headers[i]), "number of employees"))
  {
    definitions := [];
    for i := 0 to |headers|
      invariant |definitions| == i
      invariant forall j :: 0 <= j < i ==> definitions[j].name == headers[j]
      invariant forall j :: 0 <= j < i ==>
                  (definitions[j].columnType == DateType <==> Contains(ToLower(headers[j]), "date"))
      invariant forall j :: 0 <= j < i ==>
                  (definitions[j].columnType == IntegerType <==>
                     !Contains(ToLower(headers[j]), "date") && Contains(ToLower(headers[j]), "number of employees"))
    {
      var header := headers[i];
      if Contains(ToLower(header), "date") {
        definitions := definitions + [ColumnDefinition(header, DateType)];
      } else if Contains(ToLower(header), "number of employees") {
        definitions := definitions + [ColumnDefinition(header, IntegerType)];
      } else {
        definitions := definitions + [ColumnDefinition(header, StringType)];
      }
    }
  }

  /** The builder call a definition's type selects. */
  function KindOf(t: ColumnType): (k: ColumnKind)
    ensures k != Increments
    ensures k == IntegerColumn <==> t == IntegerType
    ensures k == DateColumn <==> t == DateType
    ensures k == StringColumn <==> t == StringType
  {
    match t
    case IntegerType => IntegerColumn
    case DateType => DateColumn
    case StringType => StringColumn
  }

  /** The table callback: the `id` column, then one not-nullable column per definition. */
  method BuildColumns(definitions: seq<ColumnDefinition>) returns (columns: seq<Column>)
    ensures |columns| == |definitions| + 1
    ensures columns[0] == IdColumn
    ensures forall i :: 0 <= i < |definitions| ==>
              columns[i + 1] == Column(definitions[i].name, KindOf(definitions[i].columnType), false, true)
  {
    columns := [IdColumn];
    for i := 0 to |definitions|
      invariant |columns| == i + 1
      invariant columns[0] == IdColumn
      invariant forall j :: 0 <= j < i ==>
                  columns[j + 1] == Column(definitions[j].name, KindOf(definitions[j].columnType), false, true)
    {
      var column := definitions[i];
      if column.columnType == IntegerType {
        columns := columns + [Column(column.name, IntegerColumn, false, true)];
      } else if column.columnType == DateType {
        columns := columns + [Column(column.name, DateColumn, false, true)];
      } else {
        columns := columns + [Column(column.name, StringColumn, false, true)];
      }
    }
  }

  /**
   * `createTableFromCSV` given the file's header row: the table's name, its `id` key, and one
   * column per kept header in header order; no column but `id` is an index column or a primary key.
   */
  method CreateTableFromCsv(filename: string, headerRow: seq<string>) returns (table: Table)
    ensures table.name == "Organizations" <==> Contains(filename, "organizations")
    ensures table.name == "Organizations" || table.name == "Customers"
    ensures |table.columns| == |FilterHeaders(headerRow)| + 1
    ensures table.columns[0] == IdColumn
    ensures forall i :: 1 <= i < |table.columns| ==>
              && table.columns[i].name == FilterHeaders(headerRow)[i - 1]
              && ToLower(table.columns[i].name) != "index"
              && !table.columns[i].primary && table.columns[i].notNullable
    ensures forall i :: 1 <= i < |table.columns| ==>
              && (table.columns[i].kind == DateColumn <==> Contains(ToLower(table.columns[i].name), "date"))
              && (table.columns[i].kind == IntegerColumn <==>
                    !Contains(ToLower(table.columns[i].name), "date")
                    && Contains(ToLower(table.columns[i].name), "number of employees"))
              && (table.columns[i].kind == StringColumn <==>
                    !Contains(ToLower(table.columns[i].name), "date")
                    && !Contains(ToLower(table.columns[i].name), "number of employees"))
  {
    var tableName := TableName(filename);
    var headers := FilterHeaders(headerRow);
    var definitions := GenerateColumnDefinitions(headers);
    var columns := BuildColumns(definitions);
    assert forall i :: 1 <= i < |columns| ==> columns[i].name == headers[i - 1];
    assert forall i :: 0 <= i < |headers| ==> headers[i] in headers;
    table := Table(tableName, columns);
  }

  /** `path.join(dir, file)` for a plain directory name: no normalisation of `.` or `..`. */
  function JoinPath(dir: string, file: string): (path: string)
    ensures |path| == |dir| + 1 + |file|
    ensures path[..|dir|] == dir && path[|dir|] == '/' && path[|dir| + 1..] == file
  {
    dir + "/" + file
  }

  /** The organizations file's path always mentions `organizations`. */
  lemma OrganizationsPath(dir: string)
    ensures Contains(JoinPath(dir, "organizations.csv"), "organizations")
  {
    var path := JoinPath(dir, "organizations.csv");
    assert path[|dir| + 1..|dir| + 14] == "organizations";
    assert OccursAt(path, "organizations", |dir| + 1);
  }

  /** The customers file's path mentions `organizations` only through its directory. */
  lemma CustomersPath(dir: string)
    ensures Contains(JoinPath(dir, "customers.csv"), "organizations") <==> Contains(dir, "organizations")
  {
    assert !Contains("customers.csv", "organizations") by {
      assert "customers.csv"[0..13][0] != "organizations"[0];
      assert !ContainsFrom("customers.csv", "organizations", 1);
    }
    assert dir + "/" + "customers.csv" == dir + ['/'] + "customers.csv";
    ContainsJoin(dir, '/', "customers.csv", "organizations");
  }

  /**
   * `createSchema`: the organizations table, then the customers table. Creating a table whose
   * name is taken throws and ends the run, so a directory whose name mentions `organizations`
   * gets one table only.
   */
  method CreateSchemaTables(dir: string, organizationsHeaders: seq<string>, customersHeaders: seq<string>)
    returns (tables: seq<Table>)
    ensures !Contains(dir, "organizations") ==>
              |tables| == 2 && tables[0].name == "Organizations" && tables[1].name == "Customers"
    ensures Contains(dir, "organizations") ==> |tables| == 1 && tables[0].name == "Organizations"
    ensures forall t :: t in tables ==> |t.columns| >= 1 && t.columns[0] == IdColumn
    ensures |tables[0].columns| == |FilterHeaders(organizationsHeaders)| + 1
    ensures forall i :: 1 <= i < |tables[0].columns| ==>
              tables[0].columns[i].name == FilterHeaders(organizationsHeaders)[i - 1]
    ensures |tables| == 2 ==> |tables[1].columns| == |FilterHeaders(customersHeaders)| + 1
    ensures |tables| == 2 ==> forall i :: 1 <= i < |tables[1].columns| ==>
              tables[1].columns[i].name == FilterHeaders(customersHeaders)[i - 1]
  {
    OrganizationsPath(dir);
    CustomersPath(dir);
    var organizations := CreateTableFromCsv(JoinPath(dir, "organizations.csv"), organizationsHeaders);
    var customers := CreateTableFromCsv(JoinPath(dir, "customers.csv"), customersHeaders);
    if customers.name == organizations.name {
      tables := [organizations];
    } else {
      tables := [organizations, customers];
    }
  }
}
