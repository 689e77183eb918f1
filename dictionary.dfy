/** The content-provider demo: DictionaryProvider serves a fixed five-word
    table through `query`, and the client's `fetchWords` reads a cursor
    back into a list of words, looking each column up by name. */
module Dictionary {
  import opened Platform
  import opened Text

  const AUTHORITY := "com.balajiprabhu.contentprovider.dictionary"
  const CONTENT_URI := "content://" + AUTHORITY + "/words"
  /** `BaseColumns._ID`. */
  const ID_COLUMN := "_id"
  const WORD_COLUMN := "word"
  const DEFINITION_COLUMN := "definition"

  datatype Entry = Entry(word: string, definition: string)

  /** The provider's table, in order. */
  const MockData: seq<Entry> := [
    Entry("Intent", "A messaging object used to request an action from another app component."),
    Entry("Service", "An application component that can perform long-running operations in the background."),
    Entry("BroadcastReceiver", "A component that enables the system to deliver events to the app."),
    Entry("ContentProvider", "A component that manages access to a central repository of data."),
    Entry("Activity", "An entry point for interacting with the user.")
  ]

  /** A cursor cell: a number, a string, or null. */
  datatype Cell = CNum(n: int) | CStr(s: string) | CNull

  /** A MatrixCursor: column names and rows of cells. */
  datatype Cursor = Cursor(columns: seq<string>, rows: seq<seq<Cell>>)

  /** MatrixCursor refuses a row whose length differs from the column count,
      so every cursor it builds has this shape. */
  predicate WellFormed(c: Cursor) {
    forall r :: 0 <= r < |c.rows| ==> |c.rows[r]| == |c.columns|
  }

  // -------------------------------------------------------------- provider

  function ProviderRow(i: nat): seq<Cell>
    requires i < |MockData|
  {
    [CNum(i), CStr(MockData[i].word), CStr(MockData[i].definition)]
  }

  /** `query`: the three columns, then one row per entry of the table, in
      order, with its 0-based index as `_id`. None of the arguments is
      read. */
  function Query(uri: string, projection: Option<seq<string>>, selection: Option<string>,
                 selectionArgs: Option<seq<string>>, sortOrder: Option<string>): (c: Cursor)
    ensures WellFormed(c)
    ensures c.columns == [ID_COLUMN, WORD_COLUMN, DEFINITION_COLUMN]
    ensures |c.rows| == |MockData| == 5
    ensures forall i :: 0 <= i < |c.rows| ==>
      c.rows[i][0] == CNum(i) && c.rows[i][1] == CStr(MockData[i].word) && c.rows[i][2] == CStr(MockData[i].definition)
  {
    Cursor([ID_COLUMN, WORD_COLUMN, DEFINITION_COLUMN],
           seq(|MockData|, i requires 0 <= i < |MockData| => ProviderRow(i)))
  }

  /** `getType` answers null: the provider declares no MIME type. */
  function GetType(uri: string): (t: Option<string>)
    ensures t == None
  {
    None
  }

  /** `insert` stores nothing and returns no new row's URI. */
  function Insert(uri: string, values: Option<Extras>): (r: Option<string>)
    ensures r == None
  {
    None
  }

  /** `delete` removes no rows. */
  function Delete(uri: string, selection: Option<string>, selectionArgs: Option<seq<string>>): (count: int)
    ensures count == 0
  {
    0
  }

  /** `update` changes no rows. */
  function Update(uri: string, values: Option<Extras>, selection: Option<string>,
                  selectionArgs: Option<seq<string>>): (count: int)
    ensures count == 0
  {
    0
  }

  // ---------------------------------------------------------------- client

  datatype DictionaryWord = DictionaryWord(id: int, word: string, definition: string)

  /** Why `fetchWords` throws: `getColumnIndexOrThrow` finds no such column,
      `getLong` cannot parse a string cell, or a null string reaches the
      non-null `DictionaryWord` constructor. */
  datatype FetchError = MissingColumn(name: string) | NumberFormat(text: string) | NullValue(column: string)

  /** `getColumnIndex`: the first column whose name matches, letter case
      ignored. */
  function ColumnIndex(columns: seq<string>, name: string): (r: Option<nat>)
    ensures r.Some? ==> r.value < |columns| && EqualsIgnoreCase(columns[r.value], name)
    ensures r.Some? ==> forall j :: 0 <= j < r.value ==> !EqualsIgnoreCase(columns[j], name)
    ensures r.None? ==> forall j :: 0 <= j < |columns| ==> !EqualsIgnoreCase(columns[j], name)
    decreases |columns|
  {
    if columns == [] then None
    else if EqualsIgnoreCase(columns[0], name) then Some(0)
    else match ColumnIndex(columns[1..], name)
      case None => None
      case Some(k) => Some(k + 1)
  }

  /** `Long.parseLong`: an optional sign, then one or more digits. */
  function ParseLong(s: string): (r: Result<int, FetchError>)
    ensures r.Ok? ==> s != [] && (IsDigits(s) || IsDigits(s[1..]))
  {
    if s != [] && IsDigits(s) then Ok(ParseDigits(s))
    else if |s| >= 2 && s[0] == '-' && IsDigits(s[1..]) then
      var magnitude: int := ParseDigits(s[1..]);
      Ok(-magnitude)
    else if |s| >= 2 && s[0] == '+' && IsDigits(s[1..]) then Ok(ParseDigits(s[1..]))
    else Err(NumberFormat(s))
  }

  /** MatrixCursor's `getLong`: a number as is, null as 0, a string parsed. */
  function CellLong(c: Cell): Result<int, FetchError> {
    match c
    case CNum(n) => Ok(n)
    case CNull => Ok(0)
    case CStr(s) => ParseLong(s)
  }

  /** MatrixCursor's `getString`: null stays null, a number is printed. */
  function CellString(c: Cell): Option<string> {
    match c
    case CNum(n) => Some(IntToString(n))
    case CStr(s) => Some(s)
    case CNull => None
  }

  /** `getLong` reads back what `getString` prints: a number that went
      through a string cell keeps its value. */
  lemma ParseLongRoundTrip(n: int)
    ensures ParseLong(IntToString(n)) == Ok(n)
  {
    if n >= 0 {
      NatToStringRoundTrip(n);
    } else {
      NatToStringRoundTrip(-n);
      var s := IntToString(n);
      assert s[1..] == NatToString(-n);
      assert !IsDigit(s[0]);
    }
  }

  /** One loop iteration: read the three cells into a word. */
  function ReadRow(row: seq<Cell>, idIndex: nat, wordIndex: nat, defIndex: nat): Result<DictionaryWord, FetchError>
    requires idIndex < |row| && wordIndex < |row| && defIndex < |row|
  {
    match CellLong(row[idIndex])
    case Err(e) => Err(e)
    case Ok(id) =>
      match CellString(row[wordIndex])
      case None => Err(NullValue(WORD_COLUMN))
      case Some(word) =>
        match CellString(row[defIndex])
        case None => Err(NullValue(DEFINITION_COLUMN))
        case Some(def) => Ok(DictionaryWord(id, word, def))
  }

  predicate IndicesFit(rows: seq<seq<Cell>>, idIndex: nat, wordIndex: nat, defIndex: nat) {
    forall r :: 0 <= r < |rows| ==> idIndex < |rows[r]| && wordIndex < |rows[r]| && defIndex < |rows[r]|
  }

  /** The rows read in order, stopping at the first that fails. */
  function ReadRows(rows: seq<seq<Cell>>, idIndex: nat, wordIndex: nat, defIndex: nat): Result<seq<DictionaryWord>, FetchError>
    requires IndicesFit(rows, idIndex, wordIndex, defIndex)
    decreases |rows|
  {
    if rows == [] then Ok([])
    else match ReadRows(rows[..|rows| - 1], idIndex, wordIndex, defIndex)
      case Err(e) => Err(e)
      case Ok(words) =>
        match ReadRow(rows[|rows| - 1], idIndex, wordIndex, defIndex)
        case Err(e) => Err(e)
        case Ok(w) => Ok(words + [w])
  }

  /** What `fetchWords` returns, or the exception it raises: no cursor
      gives no words; the three columns are looked up in order; then every
      row is read. */
  function FetchResult(cursor: Option<Cursor>): Result<seq<DictionaryWord>, FetchError>
    requires cursor.Some? ==> WellFormed(cursor.value)
  {
    match cursor
    case None => Ok([])
    case Some(c) =>
      match ColumnIndex(c.columns, ID_COLUMN)
      case None => Err(MissingColumn(ID_COLUMN))
      case Some(idIndex) =>
        match ColumnIndex(c.columns, WORD_COLUMN)
        case None => Err(MissingColumn(WORD_COLUMN))
        case Some(wordIndex) =>
          match ColumnIndex(c.columns, DEFINITION_COLUMN)
          case None => Err(MissingColumn(DEFINITION_COLUMN))
          case Some(defIndex) => ReadRows(c.rows, idIndex, wordIndex, defIndex)
  }

  /** `fetchWords`: the `while (moveToNext())` loop appending to a list. */
  method FetchWords(cursor: Option<Cursor>) returns (r: Result<seq<DictionaryWord>, FetchError>)
    requires cursor.Some? ==> WellFormed(cursor.value)
    ensures r == FetchResult(cursor)
  {
    if cursor.None? {
      return Ok([]);
    }
    var c := cursor.value;
    var idIndex := ColumnIndex(c.columns, ID_COLUMN);
    if idIndex.None? {
      return Err(MissingColumn(ID_COLUMN));
    }
    var wordIndex := ColumnIndex(c.columns, WORD_COLUMN);
    if wordIndex.None? {
      return Err(MissingColumn(WORD_COLUMN));
    }
    var defIndex := ColumnIndex(c.columns, DEFINITION_COLUMN);
    if defIndex.None? {
      return Err(MissingColumn(DEFINITION_COLUMN));
    }
    var ix, iw, id := idIndex.value, wordIndex.value, defIndex.value;
    var words: seq<DictionaryWord> := [];
    var position := 0;
    while position < |c.rows|
      invariant 0 <= position <= |c.rows|
      invariant ReadRows(c.rows[..position], ix, iw, id) == Ok(words)
    {
      assert c.rows[..position + 1][..position] == c.rows[..position];
      var row := ReadRow(c.rows[position], ix, iw, id);
      if row.Err? {
        FailureStops(c.rows, position + 1, ix, iw, id);
        return Err(row.error);
      }
      words := words + [row.value];
      position := position + 1;
    }
    assert c.rows[..position] == c.rows;
    r := Ok(words);
  }

  // -------------------------------------------------------------- properties

  /** A row that fails stops the read: the whole read fails as the prefix
      up to that row does. */
  lemma {:induction false} FailureStops(rows: seq<seq<Cell>>, k: nat, idIndex: nat, wordIndex: nat, defIndex: nat)
    requires IndicesFit(rows, idIndex, wordIndex, defIndex) && k <= |rows|
    requires ReadRows(rows[..k], idIndex, wordIndex, defIndex).Err?
    ensures ReadRows(rows, idIndex, wordIndex, defIndex) == ReadRows(rows[..k], idIndex, wordIndex, defIndex)
    decreases |rows| - k
  {
    if k == |rows| {
      assert rows[..k] == rows;
    } else {
      var longer := rows[..k + 1];
      assert longer[..|longer| - 1] == rows[..k];
      FailureStops(rows, k + 1, idIndex, wordIndex, defIndex);
    }
  }

  /** One word per row, in row order, each read from its own row. */
  lemma {:induction false} OneWordPerRow(rows: seq<seq<Cell>>, idIndex: nat, wordIndex: nat, defIndex: nat)
    requires IndicesFit(rows, idIndex, wordIndex, defIndex)
    ensures ReadRows(rows, idIndex, wordIndex, defIndex).Ok? <==>
      forall r :: 0 <= r < |rows| ==> ReadRow(rows[r], idIndex, wordIndex, defIndex).Ok?
    ensures ReadRows(rows, idIndex, wordIndex, defIndex).Ok? ==>
      var words := ReadRows(rows, idIndex, wordIndex, defIndex).value;
      |words| == |rows| &&
      forall r :: 0 <= r < |rows| ==> words[r] == ReadRow(rows[r], idIndex, wordIndex, defIndex).value
    decreases |rows|
  {
    if rows != [] {
      var prefix := rows[..|rows| - 1];
      OneWordPerRow(prefix, idIndex, wordIndex, defIndex);
      assert forall r :: 0 <= r < |prefix| ==> prefix[r] == rows[r];
    }
  }

  /** The words depend on the cells the three names select, not on where
      the columns sit: two cursors whose rows agree cell by cell under the
      looked-up positions give the same words. */
  lemma {:induction false} ColumnPositionIrrelevant(
    rows1: seq<seq<Cell>>, i1: nat, w1: nat, d1: nat,
    rows2: seq<seq<Cell>>, i2: nat, w2: nat, d2: nat)
    requires IndicesFit(rows1, i1, w1, d1) && IndicesFit(rows2, i2, w2, d2)
    requires |rows1| == |rows2|
    requires forall r :: 0 <= r < |rows1| ==>
      rows1[r][i1] == rows2[r][i2] && rows1[r][w1] == rows2[r][w2] && rows1[r][d1] == rows2[r][d2]
    ensures ReadRows(rows1, i1, w1, d1) == ReadRows(rows2, i2, w2, d2)
    decreases |rows1|
  {
    if rows1 != [] {
      var n := |rows1| - 1;
      ColumnPositionIrrelevant(rows1[..n], i1, w1, d1, rows2[..n], i2, w2, d2);
    }
  }

  /** The provider's words, as the client should rebuild them. */
  function ExpectedWords(): seq<DictionaryWord> {
    seq(|MockData|, i requires 0 <= i < |MockData| => DictionaryWord(i, MockData[i].word, MockData[i].definition))
  }

  /** Against the provider the client gets all five words, ids 0 to 4, in
      table order, whatever query arguments it passes. */
  lemma FetchFromProvider(uri: string, projection: Option<seq<string>>, selection: Option<string>,
                          selectionArgs: Option<seq<string>>, sortOrder: Option<string>)
    ensures FetchResult(Some(Query(uri, projection, selection, selectionArgs, sortOrder))) == Ok(ExpectedWords())
  {
    var c := Query(uri, projection, selection, selectionArgs, sortOrder);
    assert EqualsIgnoreCase(c.columns[0], ID_COLUMN);
    assert ColumnIndex(c.columns, ID_COLUMN) == Some(0);
    assert !EqualsIgnoreCase(c.columns[0], WORD_COLUMN);
    assert EqualsIgnoreCase(c.columns[1], WORD_COLUMN);
    assert ColumnIndex(c.columns, WORD_COLUMN) == Some(1);
    assert !EqualsIgnoreCase(c.columns[0], DEFINITION_COLUMN);
    assert !EqualsIgnoreCase(c.columns[1], DEFINITION_COLUMN);
    assert EqualsIgnoreCase(c.columns[2], DEFINITION_COLUMN);
    assert ColumnIndex(c.columns, DEFINITION_COLUMN) == Some(2);
    forall r | 0 <= r < |c.rows|
      ensures ReadRow(c.rows[r], 0, 1, 2) == Ok(ExpectedWords()[r])
    {
    }
    OneWordPerRow(c.rows, 0, 1, 2);
    var words := ReadRows(c.rows, 0, 1, 2).value;
    assert words == ExpectedWords();
  }

  /** A missing cursor yields an empty list, not an error. */
  lemma NoCursorNoWords()
    ensures FetchResult(None) == Ok([])
  {
  }

  /** A cursor without a `word` column makes `fetchWords` throw. */
  lemma MissingWordColumnThrows(rows: seq<seq<Cell>>)
    requires forall r :: 0 <= r < |rows| ==> |rows[r]| == 2
    ensures FetchResult(Some(Cursor([ID_COLUMN, DEFINITION_COLUMN], rows))) == Err(MissingColumn(WORD_COLUMN))
  {
    var cols := [ID_COLUMN, DEFINITION_COLUMN];
    assert !EqualsIgnoreCase(cols[0], WORD_COLUMN);
    assert !EqualsIgnoreCase(cols[1], WORD_COLUMN);
  }
}
