# easylite statement builders in Dafny

`EasyLite` (core.py) is a thin layer over Python's `sqlite3`. The only logic it
owns is the SQL text it builds before it runs a statement:

- `create_table(table_name, *, auto_increment=True, **columns)` maps each
  column's Python type to a storage type. It drops the columns whose type it
  does not know, renders each kept column as `name TYPE`, and wraps the list in
  `CREATE TABLE IF NOT EXISTS t(...)`. The list can be preceded by a synthetic
  `id INTEGER PRIMARY KEY AUTOINCREMENT` column.
- `drop_table(table_name)` writes `DROP TABLE IF EXISTS t`.
- `insert(table_name, **values)` rewrites `datetime` and `date` values as
  fixed-format text, renders every value with `repr`, and writes
  `INSERT INTO t(cols) VALUES (vals)`.
- Query results come back wrapped in `Records`, a sized sequence that
  yields one `Record` per row.

The model is split into these modules:

- `Core` (core.dfy): the three builders, the type mapping and the result
  containers. The loops of `create_table` and `insert` are methods proved
  against specification functions (`KeptColumns`, `NormalizedValues`).
  `Records` and `Record` are classes with a `data` field.
- `Dicts` (dicts.dfy): a Python dict with string keys, as its items in
  insertion order. `Put` is `d[k] = v`: an existing key keeps its place, a new
  key is appended. Keyword arguments are such a list, with distinct names.
- `Dates` (dates.dfy): `date`/`datetime` values and the two `strftime`
  formats, with parsers that read the text back.
- `PyValues` (pyvalues.dfy): the values an insert carries and `repr` for
  `str` and `int`, with a reader for the literals it produces.
- `Text` (text.dfy): `str.join`, `str.split`, decimal digits and zero
  padding.
- `Wrappers` (wrappers.dfy): `Option`.

`create_table` takes Python type objects and compares them by identity
(core.py:38-45). `TypeTag` has one case per accepted type plus `OtherType` for
everything else, so `bool` is dropped: `bool is int` is false.
Every `iter()` call on `Records` starts a new pass over `data` (core.py:12-14),
so `Iterate` can be called any number of times.

## Model

| member | source | states |
|---|---|---|
| Core.Record.constructor | core.py:17-19 | A record holds exactly the row it was built from. |
| Core.Records.constructor | core.py:5-7 | A result set holds exactly the rows it was built from, in order. |
| Core.Records.Length | core.py:9-10 | `len` of a result set is the number of rows it holds. |
| Core.Records.Iterate | core.py:9-14 | Iteration yields as many records as `len` reports, one new Record per row, and the i-th record's data is the i-th row. No two records are the same object, even for equal rows. |
| Core.ColumnTypeOf | core.py:38-45 | TEXT exactly for str, datetime and date. INTEGER exactly for int, REAL exactly for float, BLOB exactly for bytes. No storage type exactly for every other type. |
| Core.CreateTable | core.py:35-51 | The statement is the CREATE TABLE text (with or without the id column, as the flag says) around the definitions of exactly the columns `KeptColumns` keeps. (The body proves that each of the loop's dict assignments appends a new key.) |
| Core.KeptColumns | core.py:36-45 | The dict the loop fills, as a list: each argument whose type maps to a storage type, with that type, in argument order. The definition is the reference; its contract only bounds its length by the argument count, and `Core.KeptColumnsAppend`, `Core.KeptColumnsSingle`, `Core.KeptColumnsMembers` and `Core.CreateTable` characterise it. |
| Core.ColumnDefs | core.py:46 | One `name TYPE` definition per kept column, in the same order, each beginning with its column's name. The definition is the reference; `Core.CreateTableDefs` and `Core.CreateTableColumns` show what the joined list reads back as. |
| Core.KeptColumnsAppend | core.py:36-46 | Dropping unmapped columns distributes over concatenation, so the kept columns keep their argument order. |
| Core.KeptColumnsSingle | core.py:38-45 | One column is kept, with its mapped storage type, exactly when its type is not an unknown one. |
| Core.KeptColumnsMembers | core.py:36-45 | A (name, storage type) pair is kept iff some argument has that name and a type that maps to that storage type. |
| Core.KeptColumnsNone | core.py:36-45 | When every argument has an unknown type, no column is kept. |
| Core.CreateTableJoin | core.py:48-51 | For a non-empty definition list, the auto-increment statement is the plain one with the `id` definition joined in as one more item at the head of the list. |
| Core.CreateTableDefs | core.py:46-51 | For a non-empty list of comma-free definitions, the parentheses hold them (after `id` when auto-increment is on) joined by ", ", and splitting on ", " returns them. |
| Core.CreateTableColumns | core.py:46-51 | With at least one kept column and comma-free names, the statement's column list splits back on ", " into `id` (if auto-increment is on) followed by `name TYPE` for each kept column, in order. |
| Core.CreateTableEmptyList | core.py:48-51 | With no kept column the statement ends in `t()`, or, with auto-increment on, in `t(id INTEGER PRIMARY KEY AUTOINCREMENT, )` with a dangling separator. |
| Core.CreateTableNoColumns | core.py:36-51 | The same two texts result whenever every argument's type is unknown. |
| Core.CreateTableSql | core.py:48-51 | The text is `CREATE TABLE IF NOT EXISTS ` and the table name and `(`, then `id INTEGER PRIMARY KEY AUTOINCREMENT, ` exactly when auto-increment is on, then the column list right before the closing `)`, and nothing else. |
| Core.DropTable | core.py:54-55 | The statement is the prefix `DROP TABLE IF EXISTS ` followed by the table name as given, and nothing else. |
| Core.Normalize | core.py:61-65 | After the rewrite no value is a date. A datetime becomes text that parses back as the same datetime without microseconds. A date becomes text that parses back as the same date. Every other value is unchanged. |
| Core.NormalizedValues | core.py:60-65 | The rewritten arguments have the same names in the same order. |
| Core.Insert | core.py:58-67 | The statement lists the argument names joined by ", ", then the literals of the rewritten values in the same order. The loop keeps every name in its place and rewrites only date and datetime values. |
| Core.NormalizeStep | core.py:61-65 | One round of the loop: when the value under the i-th name is a date or datetime, assigning its text to that name keeps the first i+1 entries normalised and the rest as passed, in the same order; any other value is left alone and the same holds without an assignment. |
| Core.Literals | core.py:66 | One literal per value, in dict order. The definition is the reference; `Core.InsertValueAt` gives the text of each literal and `Core.InsertColumns` pairs them with the names. |
| Core.InsertSql | core.py:67 | The text is `INSERT INTO ` and the table name and `(`, then the column list, then `) VALUES (`, then the value list right before the closing `)`, and nothing else. |
| Core.InsertColumns | core.py:59-67 | For non-empty arguments with comma-free names, the column list splits back into the names in order, and there are as many literals as names. |
| Core.InsertValueAt | core.py:61-67 | The i-th literal belongs to the i-th argument. A date is written as its quoted `YYYY-MM-DD` text and a datetime as its quoted `YYYY-MM-DD HH:MM:SS` text. A str or int is written as a literal that reads back as that value. Any other value is written as its own repr text. |
| PyValues.FormatDatePlain | core.py:65 | Formatted date text is printable ASCII with no quote or backslash, so repr leaves it as it is. |
| PyValues.FormatDateTimePlain | core.py:63 | The same holds for formatted datetime text. |
| Dates.FormatDate | core.py:65 | `%Y-%m-%d` is ten characters: a four-digit year, `-`, a two-digit month, `-`, a two-digit day. Each digit field reads back as the date's field. |
| Dates.FormatDateTime | core.py:63 | `%Y-%m-%d %H:%M:%S` is nineteen characters: the date text, a space, then two-digit hour, minute and second fields separated by `:`, each of which reads back as the datetime's field. |
| Dates.ParseFormatDate | core.py:65 | The date text parses back as the same date. |
| Dates.ParseFormatDateTime | core.py:63 | The datetime text parses back as the same datetime with its microseconds set to zero. |
| Dicts.Keys | core.py:59 | `kwargs.keys()`: one key per entry, in insertion order. The definition is the reference; `Dicts.Put` states how assignment changes it and `Core.InsertColumns` reads the joined keys back. |
| Dicts.Put | core.py:39-45 | `d[k] = v` leaves the key order unchanged when k is already a key and appends k otherwise, and the result holds the pair (k, v). |
| Dicts.PutNew | core.py:39-45 | Assigning a key the dict does not hold appends the pair at the end. |
| Dicts.PutExisting | core.py:63-65 | Assigning a key the dict holds replaces its value in place; the order and all other entries are unchanged. |
| Text.Join | core.py:47 | `sep.join(items)`, also used at core.py:59 and core.py:66: the empty list joins to the empty text, and a non-empty join begins with the first item. The definition is the reference; `Text.SplitJoin` shows that splitting on the separator undoes it. |
| Text.SplitJoin | core.py:47 | For a non-empty list of items, none holding the separator's first character, splitting their `", ".join` on the separator returns the items. (The empty list joins to `""`, which splits to `[""]`, so it is excluded.) |
| Text.Decimal | core.py:66 | `str(n)` is a non-empty string of decimal digits. |
| Text.ValueOfDecimal | core.py:66 | The digits of `str(n)` denote n. |
| Text.ZeroPad | core.py:63-65 | A zero-padded field is all digits and denotes n. It is at least width long, and exactly width long when n is below 10^width. |
| Text.ValueOfLeadingZeros | core.py:63-65 | Leading zeros do not change the value of a digit string. |
| Text.DecimalFits | core.py:63-65 | A number below 10^width has at most width digits. |
| PyValues.ReprStr | core.py:66 | `repr` of a str starts and ends with the quote it chose. |
| PyValues.ReprInt | core.py:66 | `repr` of an int is non-empty and starts with `-` or a digit. |
| PyValues.UnescapeChar | core.py:66 | Decoding undoes the escape `repr` gives any one character. |
| PyValues.UnescapeEscape | core.py:66 | Decoding the escaped body of a str returns the str. |
| PyValues.ReprStrRoundTrip | core.py:66 | `repr` of a str reads back as the same str. |
| PyValues.ReprIntRoundTrip | core.py:66 | `repr` of an int reads back as the same int. |
| PyValues.ReprPlain | core.py:66 | Printable ASCII text with no quote or backslash is rendered between single quotes, unchanged. |
| PyValues.Literal | core.py:66 | A str or int literal reads back as its value; any other value is rendered as its own repr text. |

## Left out

- Database access is not modelled. This covers `connect`, `query`, the `with` block around the connection, and the `self.query(sql)` call that ends each builder (core.py:26-33, 52, 56, 68). These are calls into `sqlite3`, whose effects the engine controls. Each builder is modelled up to the statement text it would run.
- `EasyLite.__init__` is left out. It stores `db_name`, which only `connect` uses.
- The `auto_increment=True` default is not modelled. `CreateTable` takes the flag explicitly.
- `Core.Records.Iterate` builds every Record at once. `__iter__` is a generator that builds them one by one as the caller asks.
- `PyValues.Literal` does not compute `repr` for floats, bytes, None, bools or other objects. Such a value (`PyOther`) carries its repr text as given, so no floating-point formatting is modelled.
- `PyValues.ReprInt`: the digit limit on int-to-text conversion is not modelled. Python 3.11 and later, and the security releases of 3.7 to 3.10, raise `ValueError` in `repr` for an int of more than 4300 decimal digits (the default `int_max_str_digits`), so such an insert builds no statement. The model renders every int, and `PyValues.ReprIntRoundTrip`, `PyValues.Literal` and `Core.Insert` hold for such ints too.
- `PyValues.ReprStr` copies characters above U+007F unchanged. Python escapes the non-printable ones among them (`\x..`, `\u....`, `\U........`), and Unicode printability is not modelled.
- `Dates.FormatDate` and `Dates.FormatDateTime` always pad the year to four digits. Some C libraries write years below 1000 without leading zeros under `%Y`.
- Dates allow any day from 1 to 31. The check of the day against the month's length, done by Python's date constructor, is left out because the formats do not depend on it. Time zones are left out because `%H:%M:%S` does not print them.
- Column and table names are not checked. Whether the produced SQL is safe from injection, or correctly quoted, is not claimed: the code interpolates names and values into the text as they are.
