/** The census-to-SQL seed generator: a district -> tehsil -> village tree becomes the
    list of lines of a SQL script that inserts every district, every tehsil (resolving
    its district by name) and every village (resolving tehsil and district by name, in
    multi-row batches of at most 100), followed by a summary block.

    Each section is defined as a function of the input (recursion on the last element,
    so that it lines up with the loops of `Convert`); `Convert` is the loop-and-counter
    program itself, proved to produce the same lines and the right counts. */
module VillagesSql {
  import opened Text
  import Optional
  import Lists

  datatype Village = Village(name: string)
  datatype Tehsil = Tehsil(name: string, code: string, villages: seq<Village>)
  datatype District = District(name: string, code: string, tehsils: seq<Tehsil>)
  datatype Document = Document(districts: seq<District>)

  /** Villages per multi-row INSERT (written as the literal `100` inside arithmetic). */
  const BatchSize: nat := 100

  const Rule: string := "-- " + "============================================================================"
  const InsertInto: string := "INSERT INTO "
  const DistrictInsert: string := InsertInto + "districts" + " (district_name, state_name) VALUES"
  const DistrictConflict: string := "ON CONFLICT " + "(district_name) DO NOTHING;"
  const TehsilInsert: string := InsertInto + "tehsils" + " (tehsil_name, district_id) VALUES"
  const TehsilConflict: string := "ON CONFLICT " + "(tehsil_name, district_id) DO NOTHING;"
  const VillageInsert: string := InsertInto + "villages" + " (village_name, tehsil_id, district_id) VALUES"
  const VillageConflict: string := "ON CONFLICT " + "(village_name, tehsil_id) DO NOTHING;"

  const DistrictsMarker: string := "-- DISTRICTS"
  const TehsilsMarker: string := "-- TEHSILS"
  const VillagesMarker: string := "-- VILLAGES"
  const SummaryMarker: string := "-- SUMMARY"
  const SummaryStart: string := "DO $$"

  // ---------------------------------------------------------------------------
  // Quote escaping and reading a SQL string literal back

  /** Doubles every single quote, as `name.replace("'", "''")`. */
  function EscapeQuotes(s: string): (r: string)
    ensures |r| >= |s|
    ensures '\'' !in s ==> r == s
  {
    if s == [] then []
    else (if s[0] == '\'' then "''" else [s[0]]) + EscapeQuotes(s[1..])
  }

  /** Reads the body of a SQL character string literal whose opening quote has been
      consumed: a doubled quote stands for one quote, a single quote ends the literal.
      Returns the denoted string and the text after the closing quote. */
  function ReadLiteralBody(s: string): (r: Optional.Option<(string, string)>)
    decreases |s|
  {
    if s == [] then Optional.None
    else if s[0] == '\'' then
      if |s| > 1 && s[1] == '\'' then
        match ReadLiteralBody(s[2..])
        case None => Optional.None
        case Some(p) => Optional.Some(("'" + p.0, p.1))
      else Optional.Some(("", s[1..]))
    else
      match ReadLiteralBody(s[1..])
      case None => Optional.None
      case Some(p) => Optional.Some(([s[0]] + p.0, p.1))
  }

  /** Reads one quoted SQL string literal at the start of `s`. */
  function ReadLiteral(s: string): Optional.Option<(string, string)> {
    if |s| > 0 && s[0] == '\'' then ReadLiteralBody(s[1..]) else Optional.None
  }

  lemma Assoc<T>(a: seq<T>, b: seq<T>, c: seq<T>)
    ensures (a + b) + c == a + (b + c)
  {
  }

  lemma ReadClosingQuote(rest: string)
    requires rest == [] || rest[0] != '\''
    ensures ReadLiteralBody("'" + rest) == Optional.Some(("", rest))
  {
    assert ("'" + rest)[1..] == rest;
  }

  lemma ReadDoubledQuote(tail: string, text: string, rest: string)
    requires ReadLiteralBody(tail) == Optional.Some((text, rest))
    ensures ReadLiteralBody("''" + tail) == Optional.Some(("'" + text, rest))
  {
    var s := "''" + tail;
    assert s[0] == '\'' && s[1] == '\'' && s[2..] == tail;
  }

  lemma ReadPlainChar(c: char, tail: string, text: string, rest: string)
    requires c != '\''
    requires ReadLiteralBody(tail) == Optional.Some((text, rest))
    ensures ReadLiteralBody([c] + tail) == Optional.Some(([c] + text, rest))
  {
    var s := [c] + tail;
    assert s[0] == c && s[1..] == tail;
  }

  /** Escaping is undone by the SQL reader: reading an escaped name followed by the
      closing quote yields the name, and reading stops exactly at that quote. */
  lemma {:induction false} EscapeRoundTrip(name: string, rest: string)
    requires rest == [] || rest[0] != '\''
    ensures ReadLiteralBody(EscapeQuotes(name) + ("'" + rest)) == Optional.Some((name, rest))
    decreases |name|
  {
    if name == [] {
      assert EscapeQuotes(name) == [];
      assert EscapeQuotes(name) + ("'" + rest) == "'" + rest;
      ReadClosingQuote(rest);
    } else {
      var piece := if name[0] == '\'' then "''" else [name[0]];
      var tail := EscapeQuotes(name[1..]) + ("'" + rest);
      assert EscapeQuotes(name) == piece + EscapeQuotes(name[1..]);
      Assoc(piece, EscapeQuotes(name[1..]), "'" + rest);
      EscapeRoundTrip(name[1..], rest);
      if name[0] == '\'' {
        ReadDoubledQuote(tail, name[1..], rest);
        assert "'" + name[1..] == name;
      } else {
        ReadPlainChar(name[0], tail, name[1..], rest);
        assert [name[0]] + name[1..] == name;
      }
    }
  }

  /** A quoted, escaped name is read back as the name, with the reader positioned
      just after the closing quote. */
  lemma ReadQuoted(name: string, rest: string)
    requires rest == [] || rest[0] != '\''
    ensures ReadLiteral(Quoted(EscapeQuotes(name)) + rest) == Optional.Some((name, rest))
  {
    var e := EscapeQuotes(name);
    assert (Quoted(e) + rest)[1..] == e + ("'" + rest);
    EscapeRoundTrip(name, rest);
  }

  // ---------------------------------------------------------------------------
  // Sections of the script

  const Title: string := "-- AH Punjab" + " - Full Villages Data from Census"
  const Provenance: string := "-- Auto" + "-generated from punjab_villages.json"
  const Notice: string := "    RAISE NOTICE "
  const Begin: string := "BEGIN"
  const NoticeLoaded: string := Notice + "'Full Punjab villages data loaded!';"
  const NoticeDistricts: string := Notice + "'Total Districts: %', (SELECT COUNT(*) FROM districts);"
  const NoticeTehsils: string := Notice + "'Total Tehsils: %', (SELECT COUNT(*) FROM tehsils);"
  const NoticeVillages: string := Notice + "'Total Villages: %', (SELECT COUNT(*) FROM villages);"
  const SummaryEnd: string := "END $$;"

  /** The two title comments and the banner of the district section. */
  function Header(): seq<string> {
    [Title, Provenance, "", Rule, DistrictsMarker, Rule, ""]
  }

  /** A section banner: the marker framed by rules and blank lines. */
  function Banner(marker: string): seq<string> {
    ["", Rule, marker, Rule, ""]
  }

  function TehsilBanner(): seq<string> {
    Banner(TehsilsMarker)
  }

  function VillageBanner(): seq<string> {
    Banner(VillagesMarker)
  }

  function SummaryBanner(): seq<string> {
    Banner(SummaryMarker)
  }

  /** The closing PL/pgSQL block that reports the table sizes. */
  function SummaryBlock(): seq<string> {
    [SummaryStart, Begin, NoticeLoaded, NoticeDistricts, NoticeTehsils, NoticeVillages, SummaryEnd]
  }

  /** A SQL string literal: the text between single quotes, as interpolated. */
  function Quoted(s: string): string {
    "'" + s + "'"
  }

  /** The subquery resolving a district by its (unescaped) name. */
  function DistrictLookup(dname: string): string {
    "(SELECT district_id FROM districts WHERE district_name = " + Quoted(dname) + ")"
  }

  /** The subquery resolving a tehsil by its (unescaped) name within a district. */
  function TehsilLookup(tname: string, dname: string): string {
    "(SELECT tehsil_id FROM tehsils WHERE tehsil_name = " + Quoted(tname)
    + " AND district_id = " + DistrictLookup(dname) + ")"
  }

  function DistrictBlock(d: District): seq<string> {
    [ "-- District: " + d.name,
      DistrictInsert,
      "(" + Quoted(d.name) + ", 'Punjab')",
      DistrictConflict,
      "" ]
  }

  function DistrictLines(ds: seq<District>): seq<string> {
    if ds == [] then [] else DistrictLines(ds[..|ds| - 1]) + DistrictBlock(ds[|ds| - 1])
  }

  function TehsilBlock(t: Tehsil, dname: string): seq<string> {
    [ TehsilInsert,
      "(" + Quoted(t.name) + ", " + DistrictLookup(dname) + ")",
      TehsilConflict ]
  }

  function TehsilInserts(ts: seq<Tehsil>, dname: string): seq<string> {
    if ts == [] then [] else TehsilInserts(ts[..|ts| - 1], dname) + TehsilBlock(ts[|ts| - 1], dname)
  }

  function TehsilGroup(d: District): seq<string> {
    ["-- Tehsils for " + d.name] + TehsilInserts(d.tehsils, d.name) + [""]
  }

  function TehsilLines(ds: seq<District>): seq<string> {
    if ds == [] then [] else TehsilLines(ds[..|ds| - 1]) + TehsilGroup(ds[|ds| - 1])
  }

  /** One value row of a village INSERT: only the village name is escaped. */
  function VillageRow(v: Village, tname: string, dname: string): string {
    "(" + (Quoted(EscapeQuotes(v.name)) + RowTail(tname, dname))
  }

  /** What follows the village name in a value row: the tehsil and district lookups. */
  function RowTail(tname: string, dname: string): string {
    ", " + TehsilLookup(tname, dname) + ", " + DistrictLookup(dname) + ")"
  }

  function Rows(batch: seq<Village>, tname: string, dname: string): (rows: seq<string>)
    ensures |rows| == |batch|
    ensures forall i :: 0 <= i < |batch| ==> rows[i] == VillageRow(batch[i], tname, dname)
  {
    if batch == [] then []
    else Rows(batch[..|batch| - 1], tname, dname) + [VillageRow(batch[|batch| - 1], tname, dname)]
  }

  /** `",\n".join(rows)`. */
  function JoinRows(rows: seq<string>): (r: string)
    ensures |rows| > 0 ==> StartsWith(r, rows[0])
  {
    if |rows| == 0 then ""
    else if |rows| == 1 then rows[0]
    else JoinRows(rows[..|rows| - 1]) + ",\n" + rows[|rows| - 1]
  }

  function Min(a: int, b: int): int {
    if a <= b then a else b
  }

  /** Number of batches of a tehsil with `n` villages: ceil(n / 100). */
  function NumBatches(n: nat): nat {
    (n + 99) / 100
  }

  /** The batches a tehsil's villages are cut into, `villages[i:i+100]` for
      `i` in `range(0, len(villages), 100)`. */
  function Chunks(vs: seq<Village>): seq<seq<Village>>
    decreases |vs|
  {
    if vs == [] then []
    else [vs[..Min(100, |vs|)]] + Chunks(vs[Min(100, |vs|)..])
  }

  function Flatten<T>(xss: seq<seq<T>>): seq<T> {
    if xss == [] then [] else xss[0] + Flatten(xss[1..])
  }

  /** The value line of one batch: its rows joined by `",\n"`. */
  function ValuesLine(batch: seq<Village>, tname: string, dname: string): (r: string)
    ensures |batch| > 0 ==> |r| > 0 && r[0] == '('
  {
    var rows := Rows(batch, tname, dname);
    assert |batch| > 0 ==> rows[0][0] == '(';
    JoinRows(rows)
  }

  function BatchBlock(batch: seq<Village>, tname: string, dname: string): seq<string> {
    [VillageInsert, ValuesLine(batch, tname, dname), VillageConflict, ""]
  }

  function BatchLines(bs: seq<seq<Village>>, tname: string, dname: string): seq<string> {
    if bs == [] then []
    else BatchLines(bs[..|bs| - 1], tname, dname) + BatchBlock(bs[|bs| - 1], tname, dname)
  }

  function VillageComment(tname: string, dname: string, n: nat): string {
    "-- Villages for " + (tname + ", " + dname + " (" + NatToString(n) + " villages)")
  }

  /** A tehsil's village statements: nothing at all when it has no villages. */
  function TehsilVillageLines(t: Tehsil, dname: string): seq<string> {
    if t.villages == [] then []
    else [VillageComment(t.name, dname, |t.villages|)]
         + BatchLines(Chunks(t.villages), t.name, dname)
  }

  function DistrictVillageLines(ts: seq<Tehsil>, dname: string): seq<string> {
    if ts == [] then []
    else DistrictVillageLines(ts[..|ts| - 1], dname) + TehsilVillageLines(ts[|ts| - 1], dname)
  }

  function VillageLines(ds: seq<District>): seq<string> {
    if ds == [] then []
    else VillageLines(ds[..|ds| - 1]) + DistrictVillageLines(ds[|ds| - 1].tehsils, ds[|ds| - 1].name)
  }

  /** The whole script, section by section, in the order the sections are written. */
  function Emit(doc: Document): seq<string> {
    Header() + DistrictLines(doc.districts) + TehsilBanner() + TehsilLines(doc.districts)
    + VillageBanner() + VillageLines(doc.districts) + SummaryBanner() + SummaryBlock()
  }

  // ---------------------------------------------------------------------------
  // Totals over the input

  function TotalTehsils(ds: seq<District>): nat {
    if ds == [] then 0 else TotalTehsils(ds[..|ds| - 1]) + |ds[|ds| - 1].tehsils|
  }

  function TehsilsVillageTotal(ts: seq<Tehsil>): nat {
    if ts == [] then 0 else TehsilsVillageTotal(ts[..|ts| - 1]) + |ts[|ts| - 1].villages|
  }

  function TotalVillages(ds: seq<District>): nat {
    if ds == [] then 0 else TotalVillages(ds[..|ds| - 1]) + TehsilsVillageTotal(ds[|ds| - 1].tehsils)
  }

  function TehsilsBatchTotal(ts: seq<Tehsil>): nat {
    if ts == [] then 0 else TehsilsBatchTotal(ts[..|ts| - 1]) + NumBatches(|ts[|ts| - 1].villages|)
  }

  function TotalBatches(ds: seq<District>): nat {
    if ds == [] then 0 else TotalBatches(ds[..|ds| - 1]) + TehsilsBatchTotal(ds[|ds| - 1].tehsils)
  }


  // ---------------------------------------------------------------------------
  // One more element of a pass appends that element's lines and count

  lemma DistrictLinesStep(ds: seq<District>, i: nat)
    requires i < |ds|
    ensures DistrictLines(ds[..i + 1]) == DistrictLines(ds[..i]) + DistrictBlock(ds[i])
  {
    assert ds[..i + 1][..i] == ds[..i];
  }

  lemma TehsilInsertsStep(ts: seq<Tehsil>, j: nat, dname: string)
    requires j < |ts|
    ensures TehsilInserts(ts[..j + 1], dname) == TehsilInserts(ts[..j], dname) + TehsilBlock(ts[j], dname)
  {
    assert ts[..j + 1][..j] == ts[..j];
  }

  lemma TehsilLinesStep(ds: seq<District>, i: nat)
    requires i < |ds|
    ensures TehsilLines(ds[..i + 1]) == TehsilLines(ds[..i]) + TehsilGroup(ds[i])
    ensures TotalTehsils(ds[..i + 1]) == TotalTehsils(ds[..i]) + |ds[i].tehsils|
  {
    assert ds[..i + 1][..i] == ds[..i];
  }

  lemma DistrictVillageLinesStep(ts: seq<Tehsil>, j: nat, dname: string)
    requires j < |ts|
    ensures DistrictVillageLines(ts[..j + 1], dname) == DistrictVillageLines(ts[..j], dname) + TehsilVillageLines(ts[j], dname)
    ensures TehsilsVillageTotal(ts[..j + 1]) == TehsilsVillageTotal(ts[..j]) + |ts[j].villages|
  {
    assert ts[..j + 1][..j] == ts[..j];
  }

  lemma VillageLinesStep(ds: seq<District>, i: nat)
    requires i < |ds|
    ensures VillageLines(ds[..i + 1]) == VillageLines(ds[..i]) + DistrictVillageLines(ds[i].tehsils, ds[i].name)
    ensures TotalVillages(ds[..i + 1]) == TotalVillages(ds[..i]) + TehsilsVillageTotal(ds[i].tehsils)
  {
    assert ds[..i + 1][..i] == ds[..i];
  }

  // ---------------------------------------------------------------------------
  // The program: three passes over the districts with running counters

  /** The district pass: one block per district, counting districts. */
  method EmitDistricts(ds: seq<District>) returns (lines: seq<string>, count: nat)
    ensures lines == DistrictLines(ds)
    ensures count == |ds|
  {
    lines, count := [], 0;
    var i := 0;
    while i < |ds|
      invariant i <= |ds|
      invariant lines == DistrictLines(ds[..i])
      invariant count == i
    {
      DistrictLinesStep(ds, i);
      lines := lines + DistrictBlock(ds[i]);
      count := count + 1;
      i := i + 1;
    }
    assert ds[..i] == ds;
  }

  /** The tehsil pass for one district: a heading, one INSERT per tehsil, a blank line. */
  method EmitTehsilGroup(d: District) returns (group: seq<string>, count: nat)
    ensures group == TehsilGroup(d)
    ensures count == |d.tehsils|
  {
    var ts := d.tehsils;
    var inserts: seq<string> := [];
    count := 0;
    var j := 0;
    while j < |ts|
      invariant j <= |ts|
      invariant inserts == TehsilInserts(ts[..j], d.name)
      invariant count == j
    {
      TehsilInsertsStep(ts, j, d.name);
      inserts := inserts + TehsilBlock(ts[j], d.name);
      count := count + 1;
      j := j + 1;
    }
    assert ts[..j] == ts;
    group := ["-- Tehsils for " + d.name] + inserts + [""];
  }

  /** The tehsil pass, counting tehsils. */
  method EmitTehsils(ds: seq<District>) returns (lines: seq<string>, count: nat)
    ensures lines == TehsilLines(ds)
    ensures count == TotalTehsils(ds)
  {
    lines, count := [], 0;
    var i := 0;
    while i < |ds|
      invariant i <= |ds|
      invariant lines == TehsilLines(ds[..i])
      invariant count == TotalTehsils(ds[..i])
    {
      TehsilLinesStep(ds, i);
      var group, n := EmitTehsilGroup(ds[i]);
      lines, count := lines + group, count + n;
      i := i + 1;
    }
    assert ds[..i] == ds;
  }

  /** The batch loop of one tehsil (`for i in range(0, len(villages), 100)`, with
      `i == 100 * k`), adding each batch's size to the village counter. */
  method EmitBatches(vs: seq<Village>, tname: string, dname: string) returns (lines: seq<string>, count: nat)
    ensures lines == BatchLines(Chunks(vs), tname, dname)
    ensures count == |vs|
  {
    ghost var bs := Chunks(vs);
    lines, count := [], 0;
    var k := 0;
    while k * 100 < |vs|
      invariant k <= |bs|
      invariant lines == BatchLines(bs[..k], tname, dname)
      invariant count == Min(k * 100, |vs|)
      decreases |vs| - k * 100
    {
      var lo, hi := k * 100, Min(k * 100 + 100, |vs|);
      var batch := vs[lo..hi];
      count := count + |batch|;
      assert count == hi == Min((k + 1) * 100, |vs|);
      EmitBatchStep(vs, k, tname, dname);
      // the INSERT head, the joined value rows, the ON CONFLICT clause and a blank line
      lines := lines + BatchBlock(batch, tname, dname);
      k := k + 1;
    }
    ChunkIndex(vs, k);
    assert k == |bs|;
    assert bs[..k] == bs;
  }

  /** Emitting the slice taken at index `100 * k` appends the block of batch `k`. */
  lemma EmitBatchStep(vs: seq<Village>, k: nat, tname: string, dname: string)
    requires k * 100 < |vs|
    ensures k < |Chunks(vs)|
    ensures BatchLines(Chunks(vs)[..k + 1], tname, dname)
            == BatchLines(Chunks(vs)[..k], tname, dname) + BatchBlock(vs[k * 100 .. Min(k * 100 + 100, |vs|)], tname, dname)
  {
    ChunkAt(vs, k);
    BatchLinesStep(Chunks(vs), k, tname, dname);
  }

  /** One tehsil of the village pass: skipped when it has no villages, otherwise a
      heading comment with the village count and then the batches. */
  method EmitTehsilVillages(t: Tehsil, dname: string) returns (lines: seq<string>, count: nat)
    ensures lines == TehsilVillageLines(t, dname)
    ensures count == |t.villages|
  {
    if t.villages == [] {
      return [], 0;
    }
    var batches;
    batches, count := EmitBatches(t.villages, t.name, dname);
    lines := [VillageComment(t.name, dname, |t.villages|)] + batches;
  }

  /** The village pass for one district. */
  method EmitDistrictVillages(d: District) returns (lines: seq<string>, count: nat)
    ensures lines == DistrictVillageLines(d.tehsils, d.name)
    ensures count == TehsilsVillageTotal(d.tehsils)
  {
    lines, count := [], 0;
    var j := 0;
    while j < |d.tehsils|
      invariant j <= |d.tehsils|
      invariant lines == DistrictVillageLines(d.tehsils[..j], d.name)
      invariant count == TehsilsVillageTotal(d.tehsils[..j])
    {
      DistrictVillageLinesStep(d.tehsils, j, d.name);
      var more, n := EmitTehsilVillages(d.tehsils[j], d.name);
      lines, count := lines + more, count + n;
      j := j + 1;
    }
    assert d.tehsils[..j] == d.tehsils;
  }

  /** The village pass, counting villages. */
  method EmitVillages(ds: seq<District>) returns (lines: seq<string>, count: nat)
    ensures lines == VillageLines(ds)
    ensures count == TotalVillages(ds)
  {
    lines, count := [], 0;
    var i := 0;
    while i < |ds|
      invariant i <= |ds|
      invariant lines == VillageLines(ds[..i])
      invariant count == TotalVillages(ds[..i])
    {
      VillageLinesStep(ds, i);
      var more, n := EmitDistrictVillages(ds[i]);
      lines, count := lines + more, count + n;
      i := i + 1;
    }
    assert ds[..i] == ds;
  }

  /** The whole conversion as the script runs it. Its lines are the section-by-section
      script `Emit(doc)`, and its three counters are the numbers of districts,
      tehsils and villages in the input. */
  method Convert(doc: Document) returns (lines: seq<string>, districtCount: nat, tehsilCount: nat, villageCount: nat)
    ensures lines == Emit(doc)
    ensures districtCount == |doc.districts|
    ensures tehsilCount == TotalTehsils(doc.districts)
    ensures villageCount == TotalVillages(doc.districts)
  {
    var districts, tehsils, villages;
    districts, districtCount := EmitDistricts(doc.districts);
    tehsils, tehsilCount := EmitTehsils(doc.districts);
    villages, villageCount := EmitVillages(doc.districts);
    lines := Header() + districts + TehsilBanner() + tehsils + VillageBanner() + villages
             + SummaryBanner() + SummaryBlock();
  }

  // ---------------------------------------------------------------------------
  // Batching

  /** There are ceil(n/100) batches. */
  lemma {:induction false} ChunksCount(vs: seq<Village>)
    ensures |Chunks(vs)| == NumBatches(|vs|)
    decreases |vs|
  {
    if vs != [] {
      ChunksCount(vs[Min(100, |vs|)..]);
    }
  }

  /** Batch `k` exists exactly when the script's loop index `100 * k` is in range. */
  lemma {:induction false} ChunkIndex(vs: seq<Village>, k: nat)
    ensures k < |Chunks(vs)| <==> k * 100 < |vs|
    decreases k
  {
    if vs != [] && k > 0 {
      var m := Min(100, |vs|);
      assert |Chunks(vs)| == 1 + |Chunks(vs[m..])|;
      ChunkIndex(vs[m..], k - 1);
    }
  }

  /** Emitting one more batch appends that batch's block. */
  lemma BatchLinesStep(bs: seq<seq<Village>>, k: nat, tname: string, dname: string)
    requires k < |bs|
    ensures BatchLines(bs[..k + 1], tname, dname) == BatchLines(bs[..k], tname, dname) + BatchBlock(bs[k], tname, dname)
  {
    assert bs[..k + 1][..k] == bs[..k];
  }

  /** The `k`-th batch is the slice the script takes at index `100 * k`. */
  lemma {:induction false} ChunkAt(vs: seq<Village>, k: nat)
    requires k * 100 < |vs|
    ensures k < |Chunks(vs)|
    ensures Chunks(vs)[k] == vs[k * 100 .. Min(k * 100 + 100, |vs|)]
    decreases k
  {
    if k > 0 {
      var lo := (k - 1) * 100;
      var hi := Min(lo + 100, |vs| - 100);
      assert lo + 100 == k * 100 && hi + 100 == Min(k * 100 + 100, |vs|);
      var rest := vs[100..];
      assert Chunks(vs) == [vs[..100]] + Chunks(rest);
      ChunkAt(rest, k - 1);
      SliceOfSuffix(vs, 100, lo, hi);
    }
  }

  lemma SliceOfSuffix<T>(s: seq<T>, d: nat, lo: nat, hi: nat)
    requires d <= |s| && lo <= hi <= |s| - d
    ensures s[d..][lo..hi] == s[d + lo .. d + hi]
  {
  }

  /** The batches partition a tehsil's village list: there are ceil(n/100) of them,
      each holds 1 to 100 villages, all but the last exactly 100, and their
      concatenation is the original list in order. */
  lemma {:induction false} ChunksPartition(vs: seq<Village>)
    ensures |Chunks(vs)| == NumBatches(|vs|)
    ensures forall k :: 0 <= k < |Chunks(vs)| ==> 0 < |Chunks(vs)[k]| <= BatchSize
    ensures forall k :: 0 <= k < |Chunks(vs)| - 1 ==> |Chunks(vs)[k]| == BatchSize
    ensures Flatten(Chunks(vs)) == vs
    decreases |vs|
  {
    ChunksCount(vs);
    if vs != [] {
      var m := Min(100, |vs|);
      ChunksPartition(vs[m..]);
      assert Chunks(vs)[0] in Chunks(vs);
      assert forall k :: 0 < k < |Chunks(vs)| ==> Chunks(vs)[k] == Chunks(vs[m..])[k - 1];
      assert vs[..m] + vs[m..] == vs;
    }
  }

  /** A tehsil without villages emits nothing; one with villages emits its heading
      comment, carrying the village count, first. */
  lemma EmptyTehsilSkipped(t: Tehsil, dname: string)
    ensures TehsilVillageLines(t, dname) == [] <==> t.villages == []
    ensures t.villages != [] ==> TehsilVillageLines(t, dname)[0] == VillageComment(t.name, dname, |t.villages|)
  {
  }

  // ---------------------------------------------------------------------------
  // Escaping in the emitted rows

  /** Every emitted village value row begins with the village name as a SQL literal
      that reads back as the original name, quotes included. */
  lemma VillageRowReadsBack(v: Village, tname: string, dname: string)
    ensures ReadLiteral(VillageRow(v, tname, dname)[1..]).Some?
    ensures ReadLiteral(VillageRow(v, tname, dname)[1..]).value.0 == v.name
  {
    var rest := RowTail(tname, dname);
    assert rest[0] == ',';
    assert VillageRow(v, tname, dname)[1..] == Quoted(EscapeQuotes(v.name)) + rest;
    ReadQuoted(v.name, rest);
  }

  /** District names are interpolated without escaping: for a district called
      `O'Brien` the value line's first literal reads back as just `O`. */
  lemma DistrictNameNotEscaped()
    ensures ReadLiteral(DistrictBlock(District("O'Brien", "", []))[2][1..]).Some?
    ensures ReadLiteral(DistrictBlock(District("O'Brien", "", []))[2][1..]).value.0 == "O"
  {
    var after := "Brien" + "'" + ", 'Punjab')";
    var line := DistrictBlock(District("O'Brien", "", []))[2];
    assert line[1..] == "'" + ("O" + ("'" + after));
    assert ("O" + ("'" + after))[1..] == "'" + after;
    assert after[0] == 'B';
    assert ReadLiteralBody("'" + after) == Optional.Some(("", after));
  }

  // ---------------------------------------------------------------------------
  // Shapes of lines, used to count statements and locate markers

  /** An INSERT head starts with `I` and names its table right after the twelve
      characters `INSERT INTO `; an ON CONFLICT clause starts with `O`. */
  predicate StatementHeads(insert: string, conflict: string) {
    |insert| > 12 && insert[0] == 'I' && |conflict| > 0 && conflict[0] == 'O'
  }

  lemma ConstantHeads()
    ensures StatementHeads(DistrictInsert, DistrictConflict)
    ensures StatementHeads(TehsilInsert, TehsilConflict)
    ensures StatementHeads(VillageInsert, VillageConflict)
    ensures DistrictInsert[12] == 'd' && TehsilInsert[12] == 't' && VillageInsert[12] == 'v'
  {
    assert |InsertInto| == 12;
  }

  /** The lines of a statement section: blanks, that section's INSERT and ON CONFLICT
      lines, value lines (which open with a parenthesis) and heading comments (which
      are longer than any section marker). */
  predicate BodyLine(l: string, insert: string, conflict: string) {
    l == "" || l == insert || l == conflict
    || (|l| > 0 && l[0] == '(') || (|l| > 12 && l[0] == '-')
  }

  /** Every `x` line is followed, two lines later, by a `y` line. */
  predicate Follows(s: seq<string>, x: string, y: string) {
    forall i :: 0 <= i < |s| && s[i] == x ==> i + 2 < |s| && s[i + 2] == y
  }

  /** Every `x` line comes before every `y` line. */
  predicate Before(s: seq<string>, x: string, y: string) {
    forall i, j :: 0 <= i < |s| && 0 <= j < |s| && s[i] == x && s[j] == y ==> i < j
  }

  /** A well-formed statement section: only body lines, exactly `n` INSERT heads, and
      each INSERT head followed by its value line and then its ON CONFLICT clause. */
  predicate Section(s: seq<string>, insert: string, conflict: string, n: nat) {
    && (forall l :: l in s ==> BodyLine(l, insert, conflict))
    && multiset(s)[insert] == n
    && Follows(s, insert, conflict)
  }

  lemma FollowsAppend(a: seq<string>, b: seq<string>, x: string, y: string)
    requires Follows(a, x, y) && Follows(b, x, y)
    ensures Follows(a + b, x, y)
  {
    forall i | 0 <= i < |a + b| && (a + b)[i] == x
      ensures i + 2 < |a + b| && (a + b)[i + 2] == y
    {
      if i >= |a| {
        assert b[i - |a|] == x;
      }
    }
  }

  lemma SectionAppend(a: seq<string>, b: seq<string>, insert: string, conflict: string, m: nat, n: nat)
    requires Section(a, insert, conflict, m) && Section(b, insert, conflict, n)
    ensures Section(a + b, insert, conflict, m + n)
  {
    FollowsAppend(a, b, insert, conflict);
  }

  lemma CommentSection(c: string, insert: string, conflict: string)
    requires StatementHeads(insert, conflict)
    requires |c| > 12 && c[0] == '-'
    ensures Section([c], insert, conflict, 0)
  {
  }

  lemma BlankSection(insert: string, conflict: string)
    requires StatementHeads(insert, conflict)
    ensures Section([""], insert, conflict, 0)
  {
  }

  lemma StatementSection(insert: string, value: string, conflict: string)
    requires StatementHeads(insert, conflict)
    requires |value| > 0 && value[0] == '('
    ensures Section([insert, value, conflict], insert, conflict, 1)
  {
  }

  /** A commented statement followed by a blank line. */
  lemma CommentedStatementSection(c: string, insert: string, value: string, conflict: string)
    requires StatementHeads(insert, conflict)
    requires |c| > 12 && c[0] == '-' && |value| > 0 && value[0] == '('
    ensures Section([c, insert, value, conflict, ""], insert, conflict, 1)
  {
    var stmt := [insert, value, conflict];
    CommentSection(c, insert, conflict);
    StatementSection(insert, value, conflict);
    BlankSection(insert, conflict);
    SectionAppend([c], stmt, insert, conflict, 0, 1);
    SectionAppend([c] + stmt, [""], insert, conflict, 1, 0);
    assert [c] + stmt + [""] == [c, insert, value, conflict, ""];
  }

  lemma DistrictBlockFacts(d: District)
    ensures Section(DistrictBlock(d), DistrictInsert, DistrictConflict, 1)
  {
    ConstantHeads();
    var c := "-- District: " + d.name;
    var v := "(" + Quoted(d.name) + ", 'Punjab')";
    assert |c| > 12 && c[0] == '-' && v[0] == '(';
    CommentedStatementSection(c, DistrictInsert, v, DistrictConflict);
  }

  /** The district section: one INSERT per district, each closed by its ON CONFLICT. */
  lemma {:induction false} DistrictLinesFacts(ds: seq<District>)
    ensures Section(DistrictLines(ds), DistrictInsert, DistrictConflict, |ds|)
  {
    if ds != [] {
      DistrictLinesFacts(ds[..|ds| - 1]);
      DistrictBlockFacts(ds[|ds| - 1]);
      SectionAppend(DistrictLines(ds[..|ds| - 1]), DistrictBlock(ds[|ds| - 1]),
                    DistrictInsert, DistrictConflict, |ds| - 1, 1);
    }
  }

  lemma TehsilBlockFacts(t: Tehsil, dname: string)
    ensures Section(TehsilBlock(t, dname), TehsilInsert, TehsilConflict, 1)
  {
    ConstantHeads();
    var v := "(" + Quoted(t.name) + ", " + DistrictLookup(dname) + ")";
    assert v[0] == '(';
    StatementSection(TehsilInsert, v, TehsilConflict);
  }

  lemma {:induction false} TehsilInsertsFacts(ts: seq<Tehsil>, dname: string)
    ensures Section(TehsilInserts(ts, dname), TehsilInsert, TehsilConflict, |ts|)
  {
    if ts != [] {
      TehsilInsertsFacts(ts[..|ts| - 1], dname);
      TehsilBlockFacts(ts[|ts| - 1], dname);
      SectionAppend(TehsilInserts(ts[..|ts| - 1], dname), TehsilBlock(ts[|ts| - 1], dname),
                    TehsilInsert, TehsilConflict, |ts| - 1, 1);
    }
  }

  lemma TehsilGroupFacts(d: District)
    ensures Section(TehsilGroup(d), TehsilInsert, TehsilConflict, |d.tehsils|)
  {
    ConstantHeads();
    var c := "-- Tehsils for " + d.name;
    assert |c| > 12 && c[0] == '-';
    var body := TehsilInserts(d.tehsils, d.name);
    TehsilInsertsFacts(d.tehsils, d.name);
    CommentSection(c, TehsilInsert, TehsilConflict);
    BlankSection(TehsilInsert, TehsilConflict);
    SectionAppend([c], body, TehsilInsert, TehsilConflict, 0, |d.tehsils|);
    SectionAppend([c] + body, [""], TehsilInsert, TehsilConflict, |d.tehsils|, 0);
  }

  /** The tehsil section: one INSERT per tehsil, each closed by its ON CONFLICT. */
  lemma {:induction false} TehsilLinesFacts(ds: seq<District>)
    ensures Section(TehsilLines(ds), TehsilInsert, TehsilConflict, TotalTehsils(ds))
  {
    if ds != [] {
      var d := ds[|ds| - 1];
      TehsilLinesFacts(ds[..|ds| - 1]);
      TehsilGroupFacts(d);
      SectionAppend(TehsilLines(ds[..|ds| - 1]), TehsilGroup(d), TehsilInsert, TehsilConflict,
                    TotalTehsils(ds[..|ds| - 1]), |d.tehsils|);
    }
  }

  lemma BatchBlockFacts(batch: seq<Village>, tname: string, dname: string)
    requires |batch| > 0
    ensures Section(BatchBlock(batch, tname, dname), VillageInsert, VillageConflict, 1)
  {
    ConstantHeads();
    var v := ValuesLine(batch, tname, dname);
    var stmt := [VillageInsert, v, VillageConflict];
    StatementSection(VillageInsert, v, VillageConflict);
    BlankSection(VillageInsert, VillageConflict);
    SectionAppend(stmt, [""], VillageInsert, VillageConflict, 1, 0);
    assert BatchBlock(batch, tname, dname) == stmt + [""];
  }

  lemma {:induction false} BatchLinesFacts(bs: seq<seq<Village>>, tname: string, dname: string)
    requires forall k :: 0 <= k < |bs| ==> |bs[k]| > 0
    ensures Section(BatchLines(bs, tname, dname), VillageInsert, VillageConflict, |bs|)
  {
    if bs != [] {
      var init := bs[..|bs| - 1];
      BatchLinesFacts(init, tname, dname);
      BatchBlockFacts(bs[|bs| - 1], tname, dname);
      SectionAppend(BatchLines(init, tname, dname), BatchBlock(bs[|bs| - 1], tname, dname),
                    VillageInsert, VillageConflict, |init|, 1);
    }
  }

  /** A tehsil's village statements: one INSERT per batch, ceil(n/100) in all. */
  lemma TehsilVillageFacts(t: Tehsil, dname: string)
    ensures Section(TehsilVillageLines(t, dname), VillageInsert, VillageConflict, NumBatches(|t.villages|))
  {
    if t.villages != [] {
      ConstantHeads();
      var c := VillageComment(t.name, dname, |t.villages|);
      assert |c| > 12 && c[0] == '-';
      var bs := Chunks(t.villages);
      ChunksPartition(t.villages);
      BatchLinesFacts(bs, t.name, dname);
      CommentSection(c, VillageInsert, VillageConflict);
      SectionAppend([c], BatchLines(bs, t.name, dname), VillageInsert, VillageConflict, 0, |bs|);
    }
  }

  lemma {:induction false} DistrictVillageFacts(ts: seq<Tehsil>, dname: string)
    ensures Section(DistrictVillageLines(ts, dname), VillageInsert, VillageConflict, TehsilsBatchTotal(ts))
  {
    if ts != [] {
      var t := ts[|ts| - 1];
      DistrictVillageFacts(ts[..|ts| - 1], dname);
      TehsilVillageFacts(t, dname);
      SectionAppend(DistrictVillageLines(ts[..|ts| - 1], dname), TehsilVillageLines(t, dname),
                    VillageInsert, VillageConflict, TehsilsBatchTotal(ts[..|ts| - 1]), NumBatches(|t.villages|));
    }
  }

  /** The village section: one INSERT per batch of every tehsil. */
  lemma {:induction false} VillageLinesFacts(ds: seq<District>)
    ensures Section(VillageLines(ds), VillageInsert, VillageConflict, TotalBatches(ds))
  {
    if ds != [] {
      var d := ds[|ds| - 1];
      VillageLinesFacts(ds[..|ds| - 1]);
      DistrictVillageFacts(d.tehsils, d.name);
      SectionAppend(VillageLines(ds[..|ds| - 1]), DistrictVillageLines(d.tehsils, d.name),
                    VillageInsert, VillageConflict, TotalBatches(ds[..|ds| - 1]), TehsilsBatchTotal(d.tehsils));
    }
  }

  /** A line that is not a body line of a section does not occur in it. */
  lemma NotInSection(s: seq<string>, insert: string, conflict: string, n: nat, x: string)
    requires Section(s, insert, conflict, n)
    requires !BodyLine(x, insert, conflict)
    ensures multiset(s)[x] == 0
  {
  }

  /** Markers are short: no section has them as body lines. */
  predicate ShortLine(x: string) {
    0 < |x| <= 12 && x[0] != '(' && x[0] != 'I' && x[0] != 'O'
  }

  lemma ShortNotBody(x: string, insert: string, conflict: string)
    requires StatementHeads(insert, conflict) && ShortLine(x)
    ensures !BodyLine(x, insert, conflict)
  {
  }

  // ---------------------------------------------------------------------------
  // The fixed sections

  /** The markers are short lines, told apart by length and one letter. */
  lemma MarkerShapes()
    ensures ShortLine(DistrictsMarker) && ShortLine(TehsilsMarker) && ShortLine(VillagesMarker)
    ensures ShortLine(SummaryMarker) && ShortLine(SummaryStart)
    ensures |DistrictsMarker| == 12 && |TehsilsMarker| == 10 && |VillagesMarker| == 11
    ensures |SummaryMarker| == 10 && |SummaryStart| == 5
    ensures DistrictsMarker[0] == '-' && TehsilsMarker[0] == '-' && VillagesMarker[0] == '-' && SummaryMarker[0] == '-'
    ensures TehsilsMarker[3] == 'T' && SummaryMarker[3] == 'S'
  {
  }

  /** The other fixed lines: long comments, or code starting with a letter or a space. */
  lemma FixedShapes()
    ensures |Title| > 12 && |Provenance| > 12 && |Rule| > 12
    ensures Title[0] == '-' && Provenance[0] == '-' && Rule[0] == '-'
    ensures SummaryStart[0] == 'D' && Begin[0] == 'B' && SummaryEnd[0] == 'E'
    ensures NoticeLoaded[0] == ' ' && NoticeDistricts[0] == ' ' && NoticeTehsils[0] == ' ' && NoticeVillages[0] == ' '
  {
  }

  /** The title block holds the district marker once and no other short line. */
  lemma HeaderCount(x: string)
    requires 0 < |x| <= 12
    ensures multiset(Header())[x] == if x == DistrictsMarker then 1 else 0
  {
    FixedShapes();
  }

  /** A banner holds its own marker once and no other short line. */
  lemma BannerCount(marker: string, x: string)
    requires 0 < |x| <= 12
    ensures multiset(Banner(marker))[x] == if x == marker then 1 else 0
  {
    FixedShapes();
  }

  /** The summary block holds its `DO $$` opener once and no comment line. */
  lemma SummaryBlockCount(x: string)
    requires |x| > 0 && (x[0] == '-' || x == SummaryStart)
    ensures multiset(SummaryBlock())[x] == if x == SummaryStart then 1 else 0
  {
    FixedShapes();
  }

  /** No fixed line is an INSERT head. */
  lemma FixedNoInsert(x: string)
    requires |x| > 0 && x[0] == 'I'
    ensures multiset(Header())[x] == 0 && multiset(TehsilBanner())[x] == 0 && multiset(VillageBanner())[x] == 0
    ensures multiset(SummaryBanner())[x] == 0 && multiset(SummaryBlock())[x] == 0
  {
    HeaderNoInsert(x);
    MarkerShapes();
    BannerNoInsert(TehsilsMarker, x);
    BannerNoInsert(VillagesMarker, x);
    BannerNoInsert(SummaryMarker, x);
    SummaryBlockNoInsert(x);
  }

  lemma HeaderNoInsert(x: string)
    requires |x| > 0 && x[0] == 'I'
    ensures multiset(Header())[x] == 0
  {
    FixedShapes();
    MarkerShapes();
  }

  lemma BannerNoInsert(marker: string, x: string)
    requires |x| > 0 && x[0] == 'I' && |marker| > 0 && marker[0] == '-'
    ensures multiset(Banner(marker))[x] == 0
  {
    FixedShapes();
  }

  lemma SummaryBlockNoInsert(x: string)
    requires |x| > 0 && x[0] == 'I'
    ensures multiset(SummaryBlock())[x] == 0
  {
    FixedShapes();
  }

  // ---------------------------------------------------------------------------
  // Properties of a script made of eight consecutive sections

  lemma FollowsAbsent(s: seq<string>, x: string, y: string)
    requires multiset(s)[x] == 0
    ensures Follows(s, x, y)
  {
    assert x !in s;
  }

  lemma Follows8(p0: seq<string>, p1: seq<string>, p2: seq<string>, p3: seq<string>,
                 p4: seq<string>, p5: seq<string>, p6: seq<string>, p7: seq<string>, x: string, y: string)
    requires Follows(p0, x, y) && Follows(p1, x, y) && Follows(p2, x, y) && Follows(p3, x, y)
    requires Follows(p4, x, y) && Follows(p5, x, y) && Follows(p6, x, y) && Follows(p7, x, y)
    ensures Follows(p0 + p1 + p2 + p3 + p4 + p5 + p6 + p7, x, y)
  {
    FollowsAppend(p0, p1, x, y);
    FollowsAppend(p0 + p1, p2, x, y);
    FollowsAppend(p0 + p1 + p2, p3, x, y);
    FollowsAppend(p0 + p1 + p2 + p3, p4, x, y);
    FollowsAppend(p0 + p1 + p2 + p3 + p4, p5, x, y);
    FollowsAppend(p0 + p1 + p2 + p3 + p4 + p5, p6, x, y);
    FollowsAppend(p0 + p1 + p2 + p3 + p4 + p5 + p6, p7, x, y);
  }

  /** A line counted once sits at a single index. */
  lemma OnceAt(s: seq<string>, x: string, i: nat, k: nat)
    requires multiset(s)[x] == 1
    requires i < |s| && k < |s| && s[i] == x && s[k] == x
    ensures i == k
  {
    if i < k {
      Lists.TwiceCounted(s, x, i, k);
    } else if k < i {
      Lists.TwiceCounted(s, x, k, i);
    }
  }

  /** `x` occurs exactly once in `s`, at index `i`. */
  predicate OnceAtIndex(s: seq<string>, x: string, i: nat) {
    i < |s| && s[i] == x && multiset(s)[x] == 1
  }

  /** Two lines that each occur once are ordered by their positions. */
  lemma BeforeAt(s: seq<string>, x: string, y: string, i: nat, j: nat)
    requires OnceAtIndex(s, x, i) && OnceAtIndex(s, y, j) && i < j
    ensures Before(s, x, y)
  {
    forall a, b | 0 <= a < |s| && 0 <= b < |s| && s[a] == x && s[b] == y
      ensures a < b
    {
      OnceAt(s, x, a, i);
      OnceAt(s, y, b, j);
    }
  }

  /** Five lines that each occur once, at increasing positions, are in that order. */
  lemma OrderedOnce(s: seq<string>, a: string, b: string, c: string, d: string, e: string,
                    ia: nat, ib: nat, ic: nat, id: nat, ie: nat)
    requires OnceAtIndex(s, a, ia) && OnceAtIndex(s, b, ib) && OnceAtIndex(s, c, ic)
    requires OnceAtIndex(s, d, id) && OnceAtIndex(s, e, ie)
    requires ia < ib < ic < id < ie
    ensures Before(s, a, b) && Before(s, b, c) && Before(s, c, d) && Before(s, d, e)
  {
    BeforeAt(s, a, b, ia, ib);
    BeforeAt(s, b, c, ib, ic);
    BeforeAt(s, c, d, ic, id);
    BeforeAt(s, d, e, id, ie);
  }

  // ---------------------------------------------------------------------------
  // The whole script

  /** The INSERT head of one table does not occur in another table's section. */
  lemma ForeignSection(s: seq<string>, insert: string, conflict: string, n: nat, x: string)
    requires Section(s, insert, conflict, n) && StatementHeads(insert, conflict)
    requires |x| > 12 && x[0] == 'I' && x[12] != insert[12]
    ensures multiset(s)[x] == 0
  {
    assert !BodyLine(x, insert, conflict);
  }

  /** The fixed sections are free of every INSERT head, so they trivially satisfy
      `Follows` for it. */
  lemma FixedFollows(x: string, y: string)
    requires |x| > 0 && x[0] == 'I'
    ensures Follows(Header(), x, y) && Follows(TehsilBanner(), x, y) && Follows(VillageBanner(), x, y)
    ensures Follows(SummaryBanner(), x, y) && Follows(SummaryBlock(), x, y)
  {
    FixedNoInsert(x);
    FollowsAbsent(Header(), x, y);
    FollowsAbsent(TehsilBanner(), x, y);
    FollowsAbsent(VillageBanner(), x, y);
    FollowsAbsent(SummaryBanner(), x, y);
    FollowsAbsent(SummaryBlock(), x, y);
  }

  /** Three statement sections with distinct tables: each holds its own INSERT heads
      and none of the others'. */
  lemma ThreeSections(s1: seq<string>, i1: string, c1: string, n1: nat,
                      s2: seq<string>, i2: string, c2: string, n2: nat,
                      s3: seq<string>, i3: string, c3: string, n3: nat)
    requires Section(s1, i1, c1, n1) && StatementHeads(i1, c1)
    requires Section(s2, i2, c2, n2) && StatementHeads(i2, c2)
    requires Section(s3, i3, c3, n3) && StatementHeads(i3, c3)
    requires i1[12] != i2[12] && i1[12] != i3[12] && i2[12] != i3[12]
    ensures multiset(s2)[i1] == 0 && multiset(s3)[i1] == 0
    ensures multiset(s1)[i2] == 0 && multiset(s3)[i2] == 0
    ensures multiset(s1)[i3] == 0 && multiset(s2)[i3] == 0
    ensures Follows(s2, i1, c1) && Follows(s3, i1, c1)
    ensures Follows(s1, i2, c2) && Follows(s3, i2, c2)
    ensures Follows(s1, i3, c3) && Follows(s2, i3, c3)
  {
    ForeignSection(s2, i2, c2, n2, i1);
    ForeignSection(s3, i3, c3, n3, i1);
    ForeignSection(s1, i1, c1, n1, i2);
    ForeignSection(s3, i3, c3, n3, i2);
    ForeignSection(s1, i1, c1, n1, i3);
    ForeignSection(s2, i2, c2, n2, i3);
    FollowsAbsent(s2, i1, c1);
    FollowsAbsent(s3, i1, c1);
    FollowsAbsent(s1, i2, c2);
    FollowsAbsent(s3, i2, c2);
    FollowsAbsent(s1, i3, c3);
    FollowsAbsent(s2, i3, c3);
  }

  /** What the three generated sections hold of each table's statements. */
  lemma BodyFacts(ds: seq<District>)
    ensures StatementHeads(DistrictInsert, DistrictConflict)
    ensures StatementHeads(TehsilInsert, TehsilConflict)
    ensures StatementHeads(VillageInsert, VillageConflict)
    ensures Section(DistrictLines(ds), DistrictInsert, DistrictConflict, |ds|)
    ensures Section(TehsilLines(ds), TehsilInsert, TehsilConflict, TotalTehsils(ds))
    ensures Section(VillageLines(ds), VillageInsert, VillageConflict, TotalBatches(ds))
    ensures multiset(TehsilLines(ds))[DistrictInsert] == 0 && multiset(VillageLines(ds))[DistrictInsert] == 0
    ensures multiset(DistrictLines(ds))[TehsilInsert] == 0 && multiset(VillageLines(ds))[TehsilInsert] == 0
    ensures multiset(DistrictLines(ds))[VillageInsert] == 0 && multiset(TehsilLines(ds))[VillageInsert] == 0
    ensures Follows(TehsilLines(ds), DistrictInsert, DistrictConflict) && Follows(VillageLines(ds), DistrictInsert, DistrictConflict)
    ensures Follows(DistrictLines(ds), TehsilInsert, TehsilConflict) && Follows(VillageLines(ds), TehsilInsert, TehsilConflict)
    ensures Follows(DistrictLines(ds), VillageInsert, VillageConflict) && Follows(TehsilLines(ds), VillageInsert, VillageConflict)
  {
    ConstantHeads();
    DistrictLinesFacts(ds);
    TehsilLinesFacts(ds);
    VillageLinesFacts(ds);
    ThreeSections(DistrictLines(ds), DistrictInsert, DistrictConflict, |ds|,
                  TehsilLines(ds), TehsilInsert, TehsilConflict, TotalTehsils(ds),
                  VillageLines(ds), VillageInsert, VillageConflict, TotalBatches(ds));
  }

  /** The script has exactly one district INSERT per district. */
  lemma EmitDistrictCount(doc: Document)
    ensures multiset(Emit(doc))[DistrictInsert] == |doc.districts|
  {
    BodyFacts(doc.districts);
    FixedNoInsert(DistrictInsert);
  }

  /** Every district INSERT is closed two lines later by its ON CONFLICT clause. */
  lemma EmitDistrictConflicts(doc: Document)
    ensures Follows(Emit(doc), DistrictInsert, DistrictConflict)
  {
    var ds := doc.districts;
    BodyFacts(ds);
    FixedFollows(DistrictInsert, DistrictConflict);
    Follows8(Header(), DistrictLines(ds), TehsilBanner(), TehsilLines(ds),
             VillageBanner(), VillageLines(ds), SummaryBanner(), SummaryBlock(), DistrictInsert, DistrictConflict);
  }

  /** The script has exactly one tehsil INSERT per tehsil. */
  lemma EmitTehsilCount(doc: Document)
    ensures multiset(Emit(doc))[TehsilInsert] == TotalTehsils(doc.districts)
  {
    BodyFacts(doc.districts);
    FixedNoInsert(TehsilInsert);
  }

  /** Every tehsil INSERT is closed two lines later by its ON CONFLICT clause. */
  lemma EmitTehsilConflicts(doc: Document)
    ensures Follows(Emit(doc), TehsilInsert, TehsilConflict)
  {
    var ds := doc.districts;
    BodyFacts(ds);
    FixedFollows(TehsilInsert, TehsilConflict);
    Follows8(Header(), DistrictLines(ds), TehsilBanner(), TehsilLines(ds),
             VillageBanner(), VillageLines(ds), SummaryBanner(), SummaryBlock(), TehsilInsert, TehsilConflict);
  }

  /** The script has one village INSERT per batch: ceil(n/100) for a tehsil of `n`
      villages, summed over all tehsils. */
  lemma EmitVillageCount(doc: Document)
    ensures multiset(Emit(doc))[VillageInsert] == TotalBatches(doc.districts)
  {
    BodyFacts(doc.districts);
    FixedNoInsert(VillageInsert);
  }

  /** Every village INSERT is closed two lines later by its ON CONFLICT clause. */
  lemma EmitVillageConflicts(doc: Document)
    ensures Follows(Emit(doc), VillageInsert, VillageConflict)
  {
    var ds := doc.districts;
    BodyFacts(ds);
    FixedFollows(VillageInsert, VillageConflict);
    Follows8(Header(), DistrictLines(ds), TehsilBanner(), TehsilLines(ds),
             VillageBanner(), VillageLines(ds), SummaryBanner(), SummaryBlock(), VillageInsert, VillageConflict);
  }

  /** A short line occurs in none of three statement sections. */
  lemma ShortNotInSections(s1: seq<string>, i1: string, c1: string, n1: nat,
                           s2: seq<string>, i2: string, c2: string, n2: nat,
                           s3: seq<string>, i3: string, c3: string, n3: nat, x: string)
    requires Section(s1, i1, c1, n1) && StatementHeads(i1, c1)
    requires Section(s2, i2, c2, n2) && StatementHeads(i2, c2)
    requires Section(s3, i3, c3, n3) && StatementHeads(i3, c3)
    requires ShortLine(x)
    ensures multiset(s1)[x] == 0 && multiset(s2)[x] == 0 && multiset(s3)[x] == 0
  {
    ShortNotBody(x, i1, c1);
    ShortNotBody(x, i2, c2);
    ShortNotBody(x, i3, c3);
    NotInSection(s1, i1, c1, n1, x);
    NotInSection(s2, i2, c2, n2, x);
    NotInSection(s3, i3, c3, n3, x);
  }

  /** A short line of the script comes from the fixed sections only. */
  lemma ShortLineCount(doc: Document, x: string)
    requires ShortLine(x)
    ensures multiset(Emit(doc))[x] == multiset(Header())[x] + multiset(TehsilBanner())[x]
            + multiset(VillageBanner())[x] + multiset(SummaryBanner())[x] + multiset(SummaryBlock())[x]
  {
    var ds := doc.districts;
    ConstantHeads();
    DistrictLinesFacts(ds);
    TehsilLinesFacts(ds);
    VillageLinesFacts(ds);
    ShortNotInSections(DistrictLines(ds), DistrictInsert, DistrictConflict, |ds|,
                       TehsilLines(ds), TehsilInsert, TehsilConflict, TotalTehsils(ds),
                       VillageLines(ds), VillageInsert, VillageConflict, TotalBatches(ds), x);
  }

  /** How often a marker-like line occurs: once for each section it opens. */
  lemma OpenerCount(doc: Document, x: string)
    requires ShortLine(x) && (x[0] == '-' || x == SummaryStart)
    ensures multiset(Emit(doc))[x] == (if x == DistrictsMarker then 1 else 0) + (if x == TehsilsMarker then 1 else 0)
            + (if x == VillagesMarker then 1 else 0) + (if x == SummaryMarker then 1 else 0)
            + (if x == SummaryStart then 1 else 0)
  {
    ShortLineCount(doc, x);
    HeaderCount(x);
    BannerCount(TehsilsMarker, x);
    BannerCount(VillagesMarker, x);
    BannerCount(SummaryMarker, x);
    SummaryBlockCount(x);
  }

  /** The script's length: seven title lines, three five-line banners, seven summary
      lines, and the three generated sections. */
  lemma EmitLength(doc: Document)
    ensures |Emit(doc)| == 29 + |DistrictLines(doc.districts)| + |TehsilLines(doc.districts)| + |VillageLines(doc.districts)|
  {
  }

  lemma FixedLengths()
    ensures |Header()| == 7 && |SummaryBlock()| == 7
    ensures |TehsilBanner()| == 5 && |VillageBanner()| == 5 && |SummaryBanner()| == 5
  {
  }

  /** The district marker is the fifth line of the title block. */
  lemma EmitDistrictsAt(doc: Document)
    ensures 4 < |Emit(doc)| && Emit(doc)[4] == DistrictsMarker
  {
    assert |Header()| == 7 && Header()[4] == DistrictsMarker;
  }

  /** The tehsil marker sits in the banner after the district statements. */
  lemma EmitTehsilsAt(doc: Document)
    ensures 9 + |DistrictLines(doc.districts)| < |Emit(doc)| && Emit(doc)[9 + |DistrictLines(doc.districts)|] == TehsilsMarker
  {
    assert |TehsilBanner()| == 5 && TehsilBanner()[2] == TehsilsMarker;
  }

  /** The village marker sits in the banner after the tehsil statements. */
  lemma EmitVillagesAt(doc: Document)
    ensures 14 + |DistrictLines(doc.districts)| + |TehsilLines(doc.districts)| < |Emit(doc)| && Emit(doc)[14 + |DistrictLines(doc.districts)| + |TehsilLines(doc.districts)|] == VillagesMarker
  {
    assert |VillageBanner()| == 5 && VillageBanner()[2] == VillagesMarker;
  }

  /** The summary marker sits in the banner after the village statements. */
  lemma EmitSummaryAt(doc: Document)
    ensures 19 + |DistrictLines(doc.districts)| + |TehsilLines(doc.districts)| + |VillageLines(doc.districts)| < |Emit(doc)| && Emit(doc)[19 + |DistrictLines(doc.districts)| + |TehsilLines(doc.districts)| + |VillageLines(doc.districts)|] == SummaryMarker
  {
    assert |SummaryBanner()| == 5 && SummaryBanner()[2] == SummaryMarker;
  }

  /** The summary block opens right after the summary banner. */
  lemma EmitSummaryStartAt(doc: Document)
    ensures 22 + |DistrictLines(doc.districts)| + |TehsilLines(doc.districts)| + |VillageLines(doc.districts)| < |Emit(doc)| && Emit(doc)[22 + |DistrictLines(doc.districts)| + |TehsilLines(doc.districts)| + |VillageLines(doc.districts)|] == SummaryStart
  {
    FixedLengths();
    assert SummaryBlock()[0] == SummaryStart;
  }

  /** The four section markers and the summary opener each occur exactly once. */
  lemma EmitMarkersOnce(doc: Document)
    ensures multiset(Emit(doc))[DistrictsMarker] == 1
    ensures multiset(Emit(doc))[TehsilsMarker] == 1
    ensures multiset(Emit(doc))[VillagesMarker] == 1
    ensures multiset(Emit(doc))[SummaryMarker] == 1
    ensures multiset(Emit(doc))[SummaryStart] == 1
  {
    MarkerShapes();
    OpenerCount(doc, DistrictsMarker);
    OpenerCount(doc, TehsilsMarker);
    OpenerCount(doc, VillagesMarker);
    OpenerCount(doc, SummaryMarker);
    OpenerCount(doc, SummaryStart);
  }

  /** The sections appear in the order districts, tehsils, villages, summary. */
  lemma EmitSectionOrder(doc: Document)
    ensures Before(Emit(doc), DistrictsMarker, TehsilsMarker)
    ensures Before(Emit(doc), TehsilsMarker, VillagesMarker)
    ensures Before(Emit(doc), VillagesMarker, SummaryMarker)
    ensures Before(Emit(doc), SummaryMarker, SummaryStart)
  {
    var ds := doc.districts;
    var n1, n2, n3 := |DistrictLines(ds)|, |TehsilLines(ds)|, |VillageLines(ds)|;
    var s := Emit(doc);
    EmitMarkersOnce(doc);
    EmitDistrictsAt(doc);
    EmitTehsilsAt(doc);
    EmitVillagesAt(doc);
    EmitSummaryAt(doc);
    EmitSummaryStartAt(doc);
    OrderedOnce(s, DistrictsMarker, TehsilsMarker, VillagesMarker, SummaryMarker, SummaryStart,
                4, 9 + n1, 14 + n1 + n2, 19 + n1 + n2 + n3, 22 + n1 + n2 + n3);
  }

  /** The script opens with the title block and closes with the summary block. */
  lemma EmitFrame(doc: Document)
    ensures Emit(doc)[..7] == Header()
    ensures Emit(doc)[|Emit(doc)| - 7..] == SummaryBlock()
  {
    var s := Emit(doc);
    assert forall i :: 0 <= i < 7 ==> s[i] == Header()[i];
  }
}
