/** Audit details (backend/internal/audit/service.go): the sanitizer that every recorded detail goes through and the
    separate validator that the store and the listing apply to what was recorded.

    A JSON object is the list of its fields in ascending key order, the order in which both walk through it.  `Rules`
    stands for what is taken from elsewhere: key normalisation, the search for credentials in a text, SHA-256,
    and splitting off the first word of a statement. */
module AuditDetail {
  import opened Wrappers
  import opened Canonical

  datatype Json =
    | Null | Truth(value: bool) | Numeral(digits: string) | Text(text: string)
    | List(items: seq<Json>) | Object(fields: seq<Field>)

  datatype Field = Field(key: string, value: Json)

  datatype Error = InvalidEvent | SensitiveDetail

  /** `verb` is the first word of a statement, trimmed and in upper case. */
  datatype Rules = Rules(
    normalize: string -> string, credential: string -> bool, blank: string -> bool, digest: string -> string,
      verb: string -> string)

  predicate PlainChar(c: char) {
    'a' <= c <= 'z' || IsDigit(c) || c == '_'
  }

  predicate HexChar(c: char) {
    IsDigit(c) || 'a' <= c <= 'f' || 'A' <= c <= 'F'
  }

  predicate AllHex(s: string) {
    forall i :: 0 <= i < |s| ==> HexChar(s[i])
  }

  predicate Plain(s: string) {
    forall i :: 0 <= i < |s| ==> PlainChar(s[i])
  }

  /** Lower-case words stay as they are under normalisation, and a digest is 64 hexadecimal digits. */
  ghost predicate Sound(r: Rules) {
    && (forall s :: Plain(s) ==> r.normalize(s) == s)
    && (forall s :: |r.digest(s)| == 64 && AllHex(r.digest(s)))
  }

  // ---- Keys ----------------------------------------------------------------------------------

  predicate OccursAt(s: string, part: string, i: int) {
    0 <= i <= |s| - |part| && s[i..i + |part|] == part
  }

  predicate Contains(s: string, part: string) {
    exists i :: 0 <= i <= |s| - |part| && OccursAt(s, part, i)
  }

  const MARKERS: seq<string> :=
    ["password", "passwd", "token", "credential", "secret", "authorization",
     "api_key", "private_key", "privatekey", "dsn", "connection_uri", "connectionuri"]

  predicate Sensitive(r: Rules, key: string) {
    exists i :: 0 <= i < |MARKERS| && Contains(r.normalize(key), MARKERS[i])
  }

  predicate SqlKey(r: Rules, key: string) {
    r.normalize(key) in {"sql", "sql_text", "query", "statement"}
  }

  predicate Reserved(r: Rules, key: string) {
    r.normalize(key) in {"sql_evidence", "sql_digest", "sql_summary"}
  }

  const VERBS: set<string> :=
    {"SELECT", "INSERT", "UPDATE", "DELETE", "CREATE", "ALTER", "DROP", "EXPLAIN", "WITH", "CALL"}

  function Summary(r: Rules, statement: string): string {
    if r.verb(statement) in VERBS then r.verb(statement) + " statement" else "SQL statement"
  }

  // ---- The sanitizer -------------------------------------------------------------------------

  /** What is kept of a statement. */
  function Evidence(r: Rules, key: string, statement: string): Json {
    Object([Field("digest", Text("sha256:" + r.digest(statement))), Field("source_field", Text(key)),
            Field("summary", Text(Summary(r, statement)))])
  }

  /** A field put in its place. */
  function Insert(fields: seq<Field>, f: Field): seq<Field> {
    if fields == [] || Before(f.key, fields[0].key) then [f] + fields else [fields[0]] + Insert(fields[1..], f)
  }

  function SanitizeValue(r: Rules, v: Json): Result<Json, Error>
    decreases v
  {
    match v
    case Object(fields) =>
      var clean := SanitizeMap(r, fields);
      if clean.Err? then Err(clean.error) else Ok(Object(clean.value))
    case List(items) =>
      var clean := SanitizeItems(r, items);
      if clean.Err? then Err(clean.error) else Ok(List(clean.value))
    case Text(text) => if r.credential(text) then Err(SensitiveDetail) else Ok(v)
    case _ => Ok(v)
  }

  function SanitizeItems(r: Rules, items: seq<Json>): Result<seq<Json>, Error>
    decreases items
  {
    if items == [] then Ok([])
    else
      var first := SanitizeValue(r, items[0]);
      if first.Err? then Err(first.error)
      else
        var rest := SanitizeItems(r, items[1..]);
        if rest.Err? then rest else Ok([first.value] + rest.value)
  }

  /** What a single field leaves: the field with its value sanitized, or evidence of a statement. */
  datatype Piece = Kept(field: Field) | Proof(entry: Json)

  function SanitizeField(r: Rules, f: Field): Result<Piece, Error>
    decreases f
  {
    if Reserved(r, f.key) then Err(InvalidEvent)
    else if Sensitive(r, f.key) then Err(SensitiveDetail)
    else if SqlKey(r, f.key) then
      if f.value.Text? && !r.blank(f.value.text) then Ok(Proof(Evidence(r, f.key, f.value.text))) else Err(InvalidEvent)
    else
      var v := SanitizeValue(r, f.value);
      if v.Err? then Err(v.error) else Ok(Kept(Field(f.key, v.value)))
  }

  /** The fields that stay and the evidence, in order; the first field at fault decides the error. */
  function SanitizeFields(r: Rules, fields: seq<Field>): Result<(seq<Field>, seq<Json>), Error>
    decreases fields, 0
  {
    if fields == [] then Ok(([], []))
    else
      var piece := SanitizeField(r, fields[0]);
      if piece.Err? then Err(piece.error)
      else
        var rest := SanitizeFields(r, fields[1..]);
        if rest.Err? then rest
        else if piece.value.Kept? then Ok(([piece.value.field] + rest.value.0, rest.value.1))
        else Ok((rest.value.0, [piece.value.entry] + rest.value.1))
  }

  function Assemble(kept: seq<Field>, evidence: seq<Json>): seq<Field> {
    if evidence == [] then kept else Insert(kept, Field("sql_evidence", List(evidence)))
  }

  function SanitizeMap(r: Rules, fields: seq<Field>): Result<seq<Field>, Error>
    decreases fields, 1
  {
    var pieces := SanitizeFields(r, fields);
    if pieces.Err? then Err(pieces.error) else Ok(Assemble(pieces.value.0, pieces.value.1))
  }

  // ---- The validator -------------------------------------------------------------------------

  predicate ValidDigest(s: string) {
    |s| == 71 && s[..7] == "sha256:" && AllHex(s[7..])
  }

  predicate ValidSummary(s: string) {
    s == "SQL statement" || exists verb :: verb in VERBS && s == verb + " statement"
  }

  function TextAt(fields: seq<Field>, key: string): Option<string> {
    if fields == [] then None
    else if fields[0].key == key then if fields[0].value.Text? then Some(fields[0].value.text) else None
    else TextAt(fields[1..], key)
  }

  /** The source field an evidence entry names, if the entry is in order. */
  function Source(r: Rules, entry: Json): Option<string> {
    if !entry.Object? || |entry.fields| != 3 then None
    else
      var source, digest, summary := TextAt(entry.fields, "source_field"), TextAt(entry.fields, "digest"),
        TextAt(entry.fields, "summary");
      if source.Some? && digest.Some? && summary.Some? && SqlKey(r, source.value) && ValidDigest(digest.value)
        && ValidSummary(summary.value)
      then source else None
  }

  predicate EntriesValid(r: Rules, items: seq<Json>, previous: string) {
    items == [] ||
    var source := Source(r, items[0]);
    source.Some? && Before(previous, source.value) && EntriesValid(r, items[1..], source.value)
  }

  predicate EvidenceValid(r: Rules, v: Json) {
    v.List? && v.items != [] && EntriesValid(r, v.items, "")
  }

  function CheckValue(r: Rules, v: Json): Option<Error>
    decreases v
  {
    match v
    case Object(fields) => CheckFields(r, fields)
    case List(items) => CheckItems(r, items)
    case Text(text) => if r.credential(text) then Some(SensitiveDetail) else None
    case _ => None
  }

  function CheckItems(r: Rules, items: seq<Json>): Option<Error>
    decreases items
  {
    if items == [] then None
    else
      var first := CheckValue(r, items[0]);
      if first.Some? then first else CheckItems(r, items[1..])
  }

  function CheckField(r: Rules, f: Field): Option<Error>
    decreases f
  {
    if Sensitive(r, f.key) then Some(SensitiveDetail)
    else if r.normalize(f.key) == "sql_digest" || r.normalize(f.key) == "sql_summary" then Some(InvalidEvent)
    else if r.normalize(f.key) == "sql_evidence" then if EvidenceValid(r, f.value) then None else Some(InvalidEvent)
    else if SqlKey(r, f.key) then Some(InvalidEvent)
    else CheckValue(r, f.value)
  }

  function CheckFields(r: Rules, fields: seq<Field>): Option<Error>
    decreases fields
  {
    if fields == [] then None
    else
      var first := CheckField(r, fields[0]);
      if first.Some? then first else CheckFields(r, fields[1..])
  }

  // ---- What the sanitizer accepts ------------------------------------------------------------

  /** Ascending keys at every level: what a decoded JSON object is. */
  predicate WellFormed(v: Json)
    decreases v
  {
    match v
    case Object(fields) => FieldsWellFormed(fields)
    case List(items) => forall i :: 0 <= i < |items| ==> WellFormed(items[i])
    case _ => true
  }

  predicate FieldsWellFormed(fields: seq<Field>)
    decreases fields
  {
    && (forall i :: 0 <= i < |fields| ==> WellFormed(fields[i].value))
    && (forall i, j :: 0 <= i < j < |fields| ==> Before(fields[i].key, fields[j].key))
  }

  /** Nothing in the value is refused: no credential in a text, no reserved or sensitive key, and a statement under
      every key for one. */
  predicate Acceptable(r: Rules, v: Json)
    decreases v
  {
    match v
    case Object(fields) => forall i :: 0 <= i < |fields| ==> FieldAcceptable(r, fields[i])
    case List(items) => forall i :: 0 <= i < |items| ==> Acceptable(r, items[i])
    case Text(text) => !r.credential(text)
    case _ => true
  }

  predicate FieldAcceptable(r: Rules, f: Field)
    decreases f
  {
    && !Reserved(r, f.key) && !Sensitive(r, f.key)
    && if SqlKey(r, f.key) then f.value.Text? && !r.blank(f.value.text) else Acceptable(r, f.value)
  }

  lemma {:induction false} AcceptsExactly(r: Rules, v: Json)
    ensures SanitizeValue(r, v).Ok? <==> Acceptable(r, v)
    decreases v
  {
    hide Reserved, Sensitive, SqlKey;
    match v
    case Object(fields) => AcceptsFieldsExactly(r, fields);
    case List(items) => AcceptsItemsExactly(r, items);
    case _ =>
  }

  lemma {:induction false} AcceptsItemsExactly(r: Rules, items: seq<Json>)
    ensures SanitizeItems(r, items).Ok? <==> forall i :: 0 <= i < |items| ==> Acceptable(r, items[i])
    decreases items
  {
    hide Reserved, Sensitive, SqlKey, Acceptable;
    if items != [] {
      AcceptsExactly(r, items[0]);
      AcceptsItemsExactly(r, items[1..]);
      assert forall i :: 0 <= i < |items| - 1 ==> items[1..][i] == items[i + 1];
      assert (forall i :: 0 <= i < |items| ==> Acceptable(r, items[i])) <==>
             Acceptable(r, items[0]) && (forall i :: 0 <= i < |items[1..]| ==> Acceptable(r, items[1..][i])) by {
        assert forall i :: 1 <= i < |items| ==> items[i] == items[1..][i - 1];
      }
    }
  }

  lemma {:induction false} AcceptsFieldsExactly(r: Rules, fields: seq<Field>)
    ensures SanitizeFields(r, fields).Ok? <==> forall i :: 0 <= i < |fields| ==> FieldAcceptable(r, fields[i])
    decreases fields
  {
    hide Reserved, Sensitive, SqlKey, FieldAcceptable;
    if fields != [] {
      AcceptsFieldExactly(r, fields[0]);
      AcceptsFieldsExactly(r, fields[1..]);
      assert (forall i :: 0 <= i < |fields| ==> FieldAcceptable(r, fields[i])) <==>
             FieldAcceptable(r, fields[0])
               && (forall i :: 0 <= i < |fields[1..]| ==> FieldAcceptable(r, fields[1..][i])) by {
        assert forall i :: 1 <= i < |fields| ==> fields[i] == fields[1..][i - 1];
      }
    }
  }

  lemma {:induction false} AcceptsFieldExactly(r: Rules, f: Field)
    ensures SanitizeField(r, f).Ok? <==> FieldAcceptable(r, f)
    decreases f
  {
    hide Reserved, Sensitive, SqlKey;
    AcceptsExactly(r, f.value);
  }

  // ---- What it returns passes the validator --------------------------------------------------

  lemma OccurringCharacters(s: string, part: string, c: char)
    requires Contains(s, part) && c in part
    ensures c in s
  {
    var i :| 0 <= i <= |s| - |part| && OccursAt(s, part, i);
    var j :| 0 <= j < |part| && part[j] == c;
    assert s[i..i + |part|][j] == s[i + j];
  }

  /** A word that lacks one character of a marker does not contain it. */
  lemma LacksMarkers(word: string, lacking: seq<char>)
    requires |lacking| == |MARKERS|
    requires forall i :: 0 <= i < |MARKERS| ==>
               lacking[i] in MARKERS[i] && (lacking[i] !in word || !Contains(word, MARKERS[i]))
    ensures forall i :: 0 <= i < |MARKERS| ==> !Contains(word, MARKERS[i])
  {
    forall i | 0 <= i < |MARKERS| ensures !Contains(word, MARKERS[i]) {
      if lacking[i] !in word { NotOccurring(word, MARKERS[i], lacking[i]); }
    }
  }

  lemma NotOccurring(s: string, part: string, c: char)
    requires c in part && c !in s
    ensures !Contains(s, part)
  {
    if Contains(s, part) { OccurringCharacters(s, part, c); }
  }

  /** The names the sanitizer itself introduces are neither sensitive nor names of statements. */
  lemma OwnNames(r: Rules)
    requires Sound(r)
    ensures r.normalize("sql_evidence") == "sql_evidence" && !Sensitive(r, "sql_evidence") && !SqlKey(r, "sql_evidence")
    ensures !Sensitive(r, "digest") && !SqlKey(r, "digest")
    ensures !Sensitive(r, "source_field") && !SqlKey(r, "source_field")
    ensures !Sensitive(r, "summary") && !SqlKey(r, "summary")
    ensures !SqlKey(r, "")
  {
    hide Sensitive;
    EvidenceName(r);
    DigestName(r);
    SourceName(r);
    SummaryName(r);
    assert Plain("");
  }

  lemma EvidenceName(r: Rules)
    requires Sound(r)
    ensures r.normalize("sql_evidence") == "sql_evidence" && !Sensitive(r, "sql_evidence")
  {
    OwnName("sql_evidence", ['p', 'p', 't', 'r', 'r', 'a', 'a', 'p', 'p', 'd', 'o', 'o']);
    assert Plain("sql_evidence");
  }

  lemma DigestName(r: Rules)
    requires Sound(r)
    ensures r.normalize("digest") == "digest" && !Sensitive(r, "digest")
  {
    OwnName("digest", ['p', 'p', 'o', 'c', 'c', 'a', 'a', 'p', 'p', 'n', 'c', 'c']);
    assert Plain("digest");
  }

  lemma SourceName(r: Rules)
    requires Sound(r)
    ensures r.normalize("source_field") == "source_field" && !Sensitive(r, "source_field")
  {
    OwnName("source_field", ['p', 'p', 't', 't', 't', 'a', 'a', 'p', 'p', 'n', 'n', 'n']);
    assert Plain("source_field");
  }

  lemma SummaryName(r: Rules)
    requires Sound(r)
    ensures r.normalize("summary") == "summary" && !Sensitive(r, "summary")
  {
    OwnName("summary", ['p', 'p', 't', 'c', 'e', 't', 'p', 'p', 'p', 'd', 'c', 'c']);
    assert Plain("summary");
  }

  lemma OwnName(word: string, lacking: seq<char>)
    requires |lacking| == |MARKERS| && |word| > 0
    requires forall i :: 0 <= i < |MARKERS| ==> lacking[i] in MARKERS[i] && (lacking[i] !in word || i == 9)
    requires forall i :: 1 <= i < |word| ==> word[i] != 's' || 'n' !in word
    ensures forall i :: 0 <= i < |MARKERS| ==> !Contains(word, MARKERS[i])
  {
    assert !Contains(word, "dsn") by {
      if 'n' !in word { NotOccurring(word, "dsn", 'n'); }
      else {
        forall i | 0 <= i <= |word| - 3 ensures !OccursAt(word, "dsn", i) {
          assert word[i..i + 3][1] == word[i + 1];
        }
      }
    }
    assert MARKERS[9] == "dsn";
    LacksMarkers(word, lacking);
  }

  lemma EvidencePasses(r: Rules, key: string, statement: string)
    requires Sound(r) && SqlKey(r, key)
    ensures Source(r, Evidence(r, key, statement)) == Some(key)
  {
    hide SqlKey;
    var digest := "sha256:" + r.digest(statement);
    assert digest[..7] == "sha256:" && digest[7..] == r.digest(statement);
    var fields := Evidence(r, key, statement).fields;
    assert TextAt(fields, "digest") == Some(digest);
    assert TextAt(fields[1..], "source_field") == Some(key) && TextAt(fields, "source_field") == Some(key);
    var summary := Summary(r, statement);
    assert TextAt(fields[1..][1..], "summary") == Some(summary);
    assert TextAt(fields[1..], "summary") == Some(summary) && TextAt(fields, "summary") == Some(summary);
    assert ValidSummary(summary) && ValidDigest(digest);
  }

  lemma {:induction false} AllChecked(r: Rules, fields: seq<Field>)
    ensures CheckFields(r, fields).None? <==> forall i :: 0 <= i < |fields| ==> CheckField(r, fields[i]).None?
  {
    hide CheckField;
    if fields != [] {
      AllChecked(r, fields[1..]);
      assert forall i :: 1 <= i < |fields| ==> fields[i] == fields[1..][i - 1];
    }
  }

  lemma {:induction false} InsertHolds(fields: seq<Field>, f: Field)
    ensures forall g :: g in Insert(fields, f) <==> g in fields || g == f
  {
    if fields != [] && !Before(f.key, fields[0].key) {
      InsertHolds(fields[1..], f);
      assert fields == [fields[0]] + fields[1..];
    }
  }

  /** All keys come after `previous`, as far as they are names of statements. */
  ghost predicate SqlKeysAfter(r: Rules, fields: seq<Field>, previous: string) {
    forall i :: 0 <= i < |fields| && SqlKey(r, fields[i].key) ==> Before(previous, fields[i].key)
  }

  lemma TailWellFormed(r: Rules, fields: seq<Field>)
    requires FieldsWellFormed(fields) && fields != []
    ensures FieldsWellFormed(fields[1..]) && SqlKeysAfter(r, fields[1..], fields[0].key) && WellFormed(fields[0].value)
  {
    hide WellFormed, SqlKey;
    assert forall i :: 0 <= i < |fields| - 1 ==> fields[1..][i] == fields[i + 1];
  }

  /** Every field that stays passes on its own, and the evidence is strictly ordered. */
  lemma {:induction false} PiecesAreValid(r: Rules, fields: seq<Field>, previous: string)
    requires Sound(r) && FieldsWellFormed(fields) && SanitizeFields(r, fields).Ok? && SqlKeysAfter(r, fields, previous)
    ensures var pieces := SanitizeFields(r, fields).value;
            && (forall i :: 0 <= i < |pieces.0| ==> CheckField(r, pieces.0[i]).None?)
            && EntriesValid(r, pieces.1, previous)
    decreases fields, 0
  {
    hide Sound, WellFormed, FieldsWellFormed, SqlKey, Reserved, Sensitive, CheckField, CheckValue, Source, Evidence;
    if fields != [] {
      TailWellFormed(r, fields);
      var f, rest := fields[0], fields[1..];
      assert forall i :: 0 <= i < |rest| ==> rest[i] == fields[i + 1];
      if SqlKey(r, f.key) {
        PiecesAreValid(r, rest, f.key);
        EvidencePasses(r, f.key, f.value.text);
      } else {
        PiecesAreValid(r, rest, previous);
        ValueIsValid(r, f.value);
        KeptFieldIsValid(r, f, SanitizeValue(r, f.value).value);
      }
    }
  }

  lemma KeptFieldIsValid(r: Rules, f: Field, v: Json)
    requires !Reserved(r, f.key) && !Sensitive(r, f.key) && !SqlKey(r, f.key) && CheckValue(r, v).None?
    ensures CheckField(r, Field(f.key, v)).None?
  {
  }

  lemma {:induction false} MapIsValid(r: Rules, fields: seq<Field>)
    requires Sound(r) && FieldsWellFormed(fields) && SanitizeMap(r, fields).Ok?
    ensures CheckFields(r, SanitizeMap(r, fields).value).None?
    decreases fields, 1
  {
    hide WellFormed, FieldsWellFormed, SqlKey, Reserved, CheckField, CheckFields, Sensitive, SanitizeFields,
      EntriesValid;
    OwnNames(r);
    NotEmptyKey(r, fields);
    PiecesAreValid(r, fields, "");
    var pieces := SanitizeFields(r, fields).value;
    var own := Field("sql_evidence", List(pieces.1));
    var result := Assemble(pieces.0, pieces.1);
    if pieces.1 != [] {
      OwnFieldIsValid(r, pieces.1);
      InsertHolds(pieces.0, own);
      forall i | 0 <= i < |result| ensures CheckField(r, result[i]).None? { assert result[i] in result; }
    }
    AllChecked(r, result);
  }

  lemma OwnFieldIsValid(r: Rules, evidence: seq<Json>)
    requires Sound(r) && evidence != [] && EntriesValid(r, evidence, "")
    ensures CheckField(r, Field("sql_evidence", List(evidence))).None?
  {
    hide Sensitive, SqlKey, EntriesValid, Sound;
    OwnNames(r);
  }

  lemma NotEmptyKey(r: Rules, fields: seq<Field>)
    requires !SqlKey(r, "")
    ensures SqlKeysAfter(r, fields, "")
  {
    hide SqlKey;
  }

  lemma {:induction false} ItemsAreValid(r: Rules, items: seq<Json>)
    requires Sound(r) && (forall i :: 0 <= i < |items| ==> WellFormed(items[i])) && SanitizeItems(r, items).Ok?
    ensures CheckItems(r, SanitizeItems(r, items).value).None?
    decreases items
  {
    hide Sound, WellFormed, SanitizeValue, CheckValue;
    if items != [] {
      ValueIsValid(r, items[0]);
      assert forall i :: 0 <= i < |items[1..]| ==> items[1..][i] == items[i + 1];
      ItemsAreValid(r, items[1..]);
      var clean := SanitizeItems(r, items).value;
      assert clean[0] == SanitizeValue(r, items[0]).value && clean[1..] == SanitizeItems(r, items[1..]).value;
    }
  }

  /** For JSON of any depth: whatever the sanitizer accepts passes the validator. */
  lemma {:induction false} ValueIsValid(r: Rules, v: Json)
    requires Sound(r) && WellFormed(v) && SanitizeValue(r, v).Ok?
    ensures CheckValue(r, SanitizeValue(r, v).value).None?
    decreases v
  {
    hide Sound, SanitizeMap, SanitizeItems;
    match v
    case Object(fields) => MapIsValid(r, fields);
    case List(items) => ItemsAreValid(r, items);
    case _ =>
  }

  // ---- What the validator lets through -------------------------------------------------------

  /** No sensitive key and no name of a statement at any level. */
  predicate Discreet(r: Rules, v: Json)
    decreases v
  {
    match v
    case Object(fields) =>
      forall i :: 0 <= i < |fields| ==> KeyDiscreet(r, fields[i].key) && Discreet(r, fields[i].value)
    case List(items) => forall i :: 0 <= i < |items| ==> Discreet(r, items[i])
    case _ => true
  }

  predicate KeyDiscreet(r: Rules, key: string) {
    !Sensitive(r, key) && !SqlKey(r, key)
  }

  lemma {:induction false} TextAtFinds(fields: seq<Field>, key: string) returns (i: nat)
    requires TextAt(fields, key).Some?
    ensures i < |fields| && fields[i].key == key && fields[i].value.Text?
  {
    if fields[0].key == key {
      i := 0;
    } else {
      i := TextAtFinds(fields[1..], key);
      i := i + 1;
    }
  }

  lemma EntryIsDiscreet(r: Rules, entry: Json)
    requires Sound(r) && Source(r, entry).Some?
    ensures Discreet(r, entry)
  {
    hide Sensitive, SqlKey, Sound, TextAt;
    OwnNames(r);
    var a := TextAtFinds(entry.fields, "source_field");
    var b := TextAtFinds(entry.fields, "digest");
    var c := TextAtFinds(entry.fields, "summary");
    forall i | 0 <= i < |entry.fields|
      ensures KeyDiscreet(r, entry.fields[i].key) && Discreet(r, entry.fields[i].value)
    {
      assert i == a || i == b || i == c;
    }
  }

  lemma {:induction false} EntriesAreDiscreet(r: Rules, items: seq<Json>, previous: string)
    requires Sound(r) && EntriesValid(r, items, previous)
    ensures forall i :: 0 <= i < |items| ==> Discreet(r, items[i])
  {
    hide Discreet, Sound, Source;
    if items != [] {
      EntryIsDiscreet(r, items[0]);
      EntriesAreDiscreet(r, items[1..], Source(r, items[0]).value);
      assert forall i :: 1 <= i < |items| ==> items[i] == items[1..][i - 1];
    }
  }

  /** Whatever the validator accepts, whoever wrote it, carries no sensitive key and no statement at any level. */
  lemma {:induction false} ValidIsDiscreet(r: Rules, v: Json)
    requires Sound(r) && CheckValue(r, v).None?
    ensures Discreet(r, v)
    decreases v
  {
    hide Sound, Sensitive, SqlKey;
    match v
    case Object(fields) =>
      AllChecked(r, fields);
      forall i | 0 <= i < |fields| ensures KeyDiscreet(r, fields[i].key) && Discreet(r, fields[i].value) {
        FieldIsDiscreet(r, fields[i]);
      }
    case List(items) =>
      ItemsChecked(r, items);
      forall i | 0 <= i < |items| ensures Discreet(r, items[i]) {
        ValidIsDiscreet(r, items[i]);
      }
    case _ =>
  }

  lemma {:induction false} ItemsChecked(r: Rules, items: seq<Json>)
    ensures CheckItems(r, items).None? <==> forall i :: 0 <= i < |items| ==> CheckValue(r, items[i]).None?
  {
    hide CheckValue;
    if items != [] {
      ItemsChecked(r, items[1..]);
      assert forall i :: 1 <= i < |items| ==> items[i] == items[1..][i - 1];
    }
  }

  lemma {:induction false} FieldIsDiscreet(r: Rules, f: Field)
    requires Sound(r) && CheckField(r, f).None?
    ensures KeyDiscreet(r, f.key) && Discreet(r, f.value)
    decreases f
  {
    hide Sound, Sensitive, CheckValue, EntriesValid;
    if r.normalize(f.key) == "sql_evidence" {
      EntriesAreDiscreet(r, f.value.items, "");
    } else {
      ValidIsDiscreet(r, f.value);
    }
  }

  // ---- What the validator accepts, exactly ---------------------------------------------------

  /** An entry of evidence: the three fields in their order, with a digest, the name of a statement and a summary. */
  predicate EntryProper(r: Rules, entry: Json) {
    && entry.Object? && |entry.fields| == 3
    && entry.fields[0].key == "digest" && entry.fields[1].key == "source_field" && entry.fields[2].key == "summary"
    && entry.fields[0].value.Text? && ValidDigest(entry.fields[0].value.text)
    && entry.fields[1].value.Text? && SqlKey(r, entry.fields[1].value.text)
    && entry.fields[2].value.Text? && ValidSummary(entry.fields[2].value.text)
  }

  /** The field an entry is about. */
  function NamedBy(entry: Json): string {
    if entry.Object? && |entry.fields| == 3 && entry.fields[1].value.Text? then entry.fields[1].value.text else ""
  }

  ghost predicate EvidenceProper(r: Rules, v: Json) {
    v.List? && v.items != [] && EntriesProper(r, v.items, "")
  }

  /** Entries in strictly ascending order of the fields they name, all after `previous`. */
  ghost predicate EntriesProper(r: Rules, items: seq<Json>, previous: string) {
    && (forall i :: 0 <= i < |items| ==> EntryProper(r, items[i]) && Before(previous, NamedBy(items[i])))
    && (forall i, j :: 0 <= i < j < |items| ==> Before(NamedBy(items[i]), NamedBy(items[j])))
  }

  /** No credential in a text, no sensitive key, no statement and nothing derived from one but proper evidence. */
  ghost predicate Presentable(r: Rules, v: Json)
    decreases v
  {
    match v
    case Object(fields) => forall i :: 0 <= i < |fields| ==> FieldPresentable(r, fields[i])
    case List(items) => forall i :: 0 <= i < |items| ==> Presentable(r, items[i])
    case Text(text) => !r.credential(text)
    case _ => true
  }

  ghost predicate FieldPresentable(r: Rules, f: Field)
    decreases f
  {
    && !Sensitive(r, f.key) && !SqlKey(r, f.key) && r.normalize(f.key) != "sql_digest"
       && r.normalize(f.key) != "sql_summary"
    && if r.normalize(f.key) == "sql_evidence" then EvidenceProper(r, f.value) else Presentable(r, f.value)
  }

  lemma NamesInOrder()
    ensures !Before("source_field", "digest") && !Before("summary", "digest") && !Before("summary", "source_field")
  {
  }

  lemma TextAtThree(fields: seq<Field>, key: string)
    requires |fields| == 3
    ensures TextAt(fields, key) ==
            if fields[0].key == key then TextOf(fields[0].value)
            else if fields[1].key == key then TextOf(fields[1].value)
            else if fields[2].key == key then TextOf(fields[2].value)
            else None
  {
    var second, third := fields[1..], fields[1..][1..];
    assert second[0] == fields[1] && third[0] == fields[2] && third[1..] == [];
    assert TextAt(third, key) == if fields[2].key == key then TextOf(fields[2].value) else None;
  }

  function TextOf(v: Json): Option<string> {
    if v.Text? then Some(v.text) else None
  }

  lemma EntryIsExact(r: Rules, entry: Json)
    requires WellFormed(entry)
    ensures Source(r, entry).Some? <==> EntryProper(r, entry)
    ensures Source(r, entry).Some? ==> Source(r, entry) == Some(NamedBy(entry))
  {
    hide SqlKey, ValidDigest, ValidSummary;
    hide TextAt, Before;
    if entry.Object? && |entry.fields| == 3 {
      var fields := entry.fields;
      TextAtThree(fields, "source_field"); TextAtThree(fields, "digest"); TextAtThree(fields, "summary");
      NamesInOrder();
      assert FieldsWellFormed(fields);
    }
  }

  lemma {:induction false} EntriesAreExact(r: Rules, items: seq<Json>, previous: string)
    requires forall i :: 0 <= i < |items| ==> WellFormed(items[i])
    ensures EntriesValid(r, items, previous) <==> EntriesProper(r, items, previous)
  {
    hide Source, EntryProper, NamedBy, WellFormed, Before;
    if items != [] {
      var first, rest := NamedBy(items[0]), items[1..];
      EntryIsExact(r, items[0]);
      assert forall i :: 0 <= i < |rest| ==> rest[i] == items[i + 1];
      EntriesAreExact(r, rest, first);
      if EntryProper(r, items[0]) && Before(previous, first) { EntriesSplit(r, items, previous); }
    }
  }

  lemma EntriesSplit(r: Rules, items: seq<Json>, previous: string)
    requires items != [] && EntryProper(r, items[0]) && Before(previous, NamedBy(items[0]))
    ensures EntriesProper(r, items, previous) <==> EntriesProper(r, items[1..], NamedBy(items[0]))
  {
    hide EntryProper, NamedBy, Before;
    var first, rest := NamedBy(items[0]), items[1..];
    assert forall i :: 0 <= i < |rest| ==> rest[i] == items[i + 1];
    if EntriesProper(r, rest, first) {
      forall i | 0 <= i < |items| ensures EntryProper(r, items[i]) && Before(previous, NamedBy(items[i])) {
        if i > 0 {
          assert items[i] == rest[i - 1];
          BeforeIsTransitive(previous, first, NamedBy(items[i]));
        }
      }
      forall i, j | 0 <= i < j < |items| ensures Before(NamedBy(items[i]), NamedBy(items[j])) {
        assert items[j] == rest[j - 1];
        if i > 0 { assert items[i] == rest[i - 1]; }
      }
    }
  }

  /** The validator accepts a detail exactly when it is presentable, at any depth. */
  lemma {:induction false} ValidatorIsExact(r: Rules, v: Json)
    requires WellFormed(v)
    ensures CheckValue(r, v).None? <==> Presentable(r, v)
    decreases v
  {
    hide Sensitive, SqlKey, CheckField, FieldPresentable;
    match v
    case Object(fields) =>
      AllChecked(r, fields);
      forall i | 0 <= i < |fields| ensures CheckField(r, fields[i]).None? <==> FieldPresentable(r, fields[i]) {
        FieldIsExact(r, fields[i]);
      }
    case List(items) =>
      ItemsChecked(r, items);
      forall i | 0 <= i < |items| ensures CheckValue(r, items[i]).None? <==> Presentable(r, items[i]) {
        ValidatorIsExact(r, items[i]);
      }
    case _ =>
  }

  lemma {:induction false} FieldIsExact(r: Rules, f: Field)
    requires WellFormed(f.value)
    ensures CheckField(r, f).None? <==> FieldPresentable(r, f)
    decreases f
  {
    hide Sensitive, CheckValue, Presentable, EntriesValid, EntriesProper;
    if r.normalize(f.key) == "sql_evidence" {
      if f.value.List? { EntriesAreExact(r, f.value.items, ""); }
    } else {
      ValidatorIsExact(r, f.value);
    }
  }

  // ---- Which fault is reported ---------------------------------------------------------------

  /** The first field at fault. */
  ghost predicate FirstAtFault(r: Rules, fields: seq<Field>, i: int) {
    0 <= i < |fields| && !FieldAcceptable(r, fields[i]) && forall j :: 0 <= j < i ==> FieldAcceptable(r, fields[j])
  }

  /** A refused object has the fault of its first field at fault: reserved before sensitive before a statement that is
      none before a fault in the value. */
  lemma {:induction false} FirstFaultIsReported(r: Rules, fields: seq<Field>, i: int)
    requires FirstAtFault(r, fields, i)
    ensures var f, result := fields[i], SanitizeMap(r, fields);
            && (Reserved(r, f.key) ==> result == Err(InvalidEvent))
            && (!Reserved(r, f.key) && Sensitive(r, f.key) ==> result == Err(SensitiveDetail))
            && (!Reserved(r, f.key) && !Sensitive(r, f.key) && SqlKey(r, f.key) ==> result == Err(InvalidEvent))
            && (!Reserved(r, f.key) && !Sensitive(r, f.key) && !SqlKey(r, f.key) && f.value.Text? ==>
                  result == Err(SensitiveDetail))
            && (!Reserved(r, f.key) && !Sensitive(r, f.key) && !SqlKey(r, f.key) && f.value.Object? ==>
                  result == SanitizeMap(r, f.value.fields))
            && result.Err?
    decreases |fields|
  {
    hide Reserved, Sensitive, SqlKey, Insert;
    AcceptsFieldExactly(r, fields[0]);
    if i > 0 {
      assert fields[1..][i - 1] == fields[i];
      assert forall j :: 0 <= j < i - 1 ==> fields[1..][j] == fields[j + 1];
      FirstFaultIsReported(r, fields[1..], i - 1);
    } else {
      AcceptsExactly(r, fields[0].value);
    }
  }

  // ---- Nothing else is lost ------------------------------------------------------------------

  /** The entry names the field, has the digest of the whole statement, and says no more of it than its first word. */
  predicate Attests(r: Rules, entry: Json, key: string, statement: string) {
    && entry.Object? && |entry.fields| == 3
    && TextAt(entry.fields, "source_field") == Some(key)
    && TextAt(entry.fields, "digest") == Some("sha256:" + r.digest(statement))
    && TextAt(entry.fields, "summary") ==
       Some(if r.verb(statement) in VERBS then r.verb(statement) + " statement" else "SQL statement")
  }

  lemma EvidenceAttests(r: Rules, key: string, statement: string)
    ensures Attests(r, Evidence(r, key, statement), key, statement)
  {
    var fields := Evidence(r, key, statement).fields;
    var digest, summary := "sha256:" + r.digest(statement), Summary(r, statement);
    assert TextAt(fields, "digest") == Some(digest);
    assert TextAt(fields[1..], "source_field") == Some(key) && TextAt(fields, "source_field") == Some(key);
    assert TextAt(fields[1..][1..], "summary") == Some(summary);
    assert TextAt(fields[1..], "summary") == Some(summary) && TextAt(fields, "summary") == Some(summary);
  }

  ghost predicate Attested(r: Rules, evidence: seq<Json>, key: string, statement: string) {
    exists entry :: entry in evidence && Attests(r, entry, key, statement)
  }

  /** The field has left its trace: its value sanitized under its own key, or an entry about its statement. */
  ghost predicate Traced(r: Rules, f: Field, kept: seq<Field>, evidence: seq<Json>) {
    if SqlKey(r, f.key) then f.value.Text? && Attested(r, evidence, f.key, f.value.text)
    else SanitizeValue(r, f.value).Ok? && Field(f.key, SanitizeValue(r, f.value).value) in kept
  }

  lemma TracedStays(r: Rules, f: Field, kept: seq<Field>, evidence: seq<Json>, kept': seq<Field>, evidence': seq<Json>)
    requires Traced(r, f, kept, evidence)
    requires forall g :: g in kept ==> g in kept'
    requires forall entry :: entry in evidence ==> entry in evidence'
    ensures Traced(r, f, kept', evidence')
  {
    hide SqlKey, SanitizeValue, Attests;
  }

  lemma {:induction false} PiecesAreTraces(r: Rules, fields: seq<Field>)
    requires SanitizeFields(r, fields).Ok?
    ensures var pieces := SanitizeFields(r, fields).value;
            && |pieces.0| + |pieces.1| == |fields|
            && (forall i :: 0 <= i < |fields| ==> Traced(r, fields[i], pieces.0, pieces.1))
  {
    hide SqlKey, Sensitive, Reserved, SanitizeValue, Evidence, Traced, SanitizeField;
    if fields != [] {
      var rest := fields[1..];
      PiecesAreTraces(r, rest);
      var before, pieces := SanitizeFields(r, rest).value, SanitizeFields(r, fields).value;
      FirstIsTraced(r, fields[0], pieces.0, pieces.1);
      forall i | 1 <= i < |fields| ensures Traced(r, fields[i], pieces.0, pieces.1) {
        assert fields[i] == rest[i - 1];
        TracedStays(r, fields[i], before.0, before.1, pieces.0, pieces.1);
      }
    }
  }

  lemma FirstIsTraced(r: Rules, f: Field, kept: seq<Field>, evidence: seq<Json>)
    requires SanitizeField(r, f).Ok?
    requires SanitizeField(r, f).value.Kept? ==> SanitizeField(r, f).value.field in kept
    requires SanitizeField(r, f).value.Proof? ==> SanitizeField(r, f).value.entry in evidence
    ensures Traced(r, f, kept, evidence)
  {
    hide Sensitive, Reserved, SqlKey, SanitizeValue, Evidence, Attests;
    if SqlKey(r, f.key) { EvidenceAttests(r, f.key, f.value.text); }
  }

  /** The result is what stays and, if there is any, one list of evidence. */
  ghost predicate Accounts(r: Rules, fields: seq<Field>, result: seq<Field>, kept: seq<Field>, evidence: seq<Json>) {
    && (forall i :: 0 <= i < |fields| ==> Traced(r, fields[i], kept, evidence))
    && |kept| + |evidence| == |fields|
    && (forall g :: g in result <==> g in kept || (evidence != [] && g == Field("sql_evidence", List(evidence))))
  }

  /** What an object becomes: every field leaves its trace, sanitized under its own key or as an entry of one list of
      evidence, there is one entry for each statement, and nothing else is recorded. */
  lemma EveryFieldIsAccountedFor(r: Rules, fields: seq<Field>)
    requires SanitizeMap(r, fields).Ok?
    ensures exists kept, evidence :: Accounts(r, fields, SanitizeMap(r, fields).value, kept, evidence)
  {
    hide SanitizeFields, Traced, Insert;
    PiecesAreTraces(r, fields);
    var pieces := SanitizeFields(r, fields).value;
    InsertHolds(pieces.0, Field("sql_evidence", List(pieces.1)));
    assert Accounts(r, fields, SanitizeMap(r, fields).value, pieces.0, pieces.1);
  }

  /** No name of a statement at any level. */
  predicate Plainly(r: Rules, v: Json)
    decreases v
  {
    match v
    case Object(fields) => forall i :: 0 <= i < |fields| ==> !SqlKey(r, fields[i].key) && Plainly(r, fields[i].value)
    case List(items) => forall i :: 0 <= i < |items| ==> Plainly(r, items[i])
    case _ => true
  }

  /** Details without statements are recorded as they are, or not at all. */
  lemma {:induction false} PlainDetailsAreKept(r: Rules, v: Json)
    requires Plainly(r, v) && SanitizeValue(r, v).Ok?
    ensures SanitizeValue(r, v).value == v
    decreases v
  {
    hide SqlKey, Sensitive, Reserved;
    match v
    case Object(fields) => PlainFieldsAreKept(r, fields);
    case List(items) => PlainItemsAreKept(r, items);
    case _ =>
  }

  lemma {:induction false} PlainItemsAreKept(r: Rules, items: seq<Json>)
    requires (forall i :: 0 <= i < |items| ==> Plainly(r, items[i])) && SanitizeItems(r, items).Ok?
    ensures SanitizeItems(r, items).value == items
    decreases items
  {
    hide Plainly, SanitizeValue;
    if items != [] {
      PlainDetailsAreKept(r, items[0]);
      assert forall i :: 0 <= i < |items[1..]| ==> items[1..][i] == items[i + 1];
      PlainItemsAreKept(r, items[1..]);
      assert items == [items[0]] + items[1..];
    }
  }

  lemma {:induction false} PlainFieldsAreKept(r: Rules, fields: seq<Field>)
    requires forall i :: 0 <= i < |fields| ==> !SqlKey(r, fields[i].key) && Plainly(r, fields[i].value)
    requires SanitizeFields(r, fields).Ok?
    ensures SanitizeFields(r, fields).value == (fields, [])
    decreases fields
  {
    hide Plainly, SqlKey, Sensitive, Reserved, SanitizeValue;
    if fields != [] {
      PlainDetailsAreKept(r, fields[0].value);
      assert forall i :: 0 <= i < |fields[1..]| ==> fields[1..][i] == fields[i + 1];
      PlainFieldsAreKept(r, fields[1..]);
      assert fields == [fields[0]] + fields[1..];
    }
  }

  // ---- The result is a JSON object again -----------------------------------------------------

  ghost predicate HasKey(fields: seq<Field>, key: string) {
    exists i :: 0 <= i < |fields| && fields[i].key == key
  }

  lemma {:induction false} InsertWellFormed(fields: seq<Field>, f: Field)
    requires FieldsWellFormed(fields) && WellFormed(f.value) && !HasKey(fields, f.key)
    ensures FieldsWellFormed(Insert(fields, f))
  {
    hide WellFormed;
    if fields == [] {
    } else if Before(f.key, fields[0].key) {
      forall i | 0 <= i < |fields| ensures Before(f.key, fields[i].key) {
        if i > 0 { BeforeIsTransitive(f.key, fields[0].key, fields[i].key); }
      }
    } else {
      BeforeIsTotal(f.key, fields[0].key);
      var rest := fields[1..];
      assert forall i :: 0 <= i < |rest| ==> rest[i] == fields[i + 1];
      assert !HasKey(rest, f.key);
      InsertWellFormed(rest, f);
      InsertHolds(rest, f);
      forall i | 0 <= i < |Insert(rest, f)| ensures Before(fields[0].key, Insert(rest, f)[i].key) {
        assert Insert(rest, f)[i] in Insert(rest, f);
      }
    }
  }

  lemma EvidenceWellFormed(r: Rules, key: string, statement: string)
    ensures WellFormed(Evidence(r, key, statement))
  {
    assert Before("digest", "source_field") && Before("digest", "summary");
    assert Before("source_field"[1..], "summary"[1..]) && Before("source_field", "summary");
  }

  lemma {:induction false} PiecesAreWellFormed(r: Rules, fields: seq<Field>)
    requires Sound(r) && FieldsWellFormed(fields) && SanitizeFields(r, fields).Ok?
    ensures var pieces := SanitizeFields(r, fields).value;
            && FieldsWellFormed(pieces.0) && (forall i :: 0 <= i < |pieces.1| ==> WellFormed(pieces.1[i]))
            && (forall i :: 0 <= i < |pieces.0| ==> HasKey(fields, pieces.0[i].key) && !Reserved(r, pieces.0[i].key))
    decreases fields, 0
  {
    hide WellFormed, Reserved, SqlKey, Sensitive, Evidence, Sound, HasKey, FieldsWellFormed, SanitizeValue;
    if fields != [] {
      var f, rest := fields[0], fields[1..];
      TailWellFormed(r, fields);
      PiecesAreWellFormed(r, rest);
      TailKeys(fields);
      if SqlKey(r, f.key) {
        EvidenceWellFormed(r, f.key, f.value.text);
      } else {
        ValueIsWellFormed(r, f.value);
        PutInFront(Field(f.key, SanitizeValue(r, f.value).value), SanitizeFields(r, rest).value.0);
      }
    } else {
      NoFieldsWellFormed();
    }
  }

  lemma NoFieldsWellFormed()
    ensures FieldsWellFormed([])
  {
  }

  lemma TailKeys(fields: seq<Field>)
    requires FieldsWellFormed(fields) && fields != []
    ensures forall key :: HasKey(fields[1..], key) ==> HasKey(fields, key) && Before(fields[0].key, key)
    ensures HasKey(fields, fields[0].key)
  {
    hide WellFormed;
    assert forall i :: 0 <= i < |fields| - 1 ==> fields[1..][i] == fields[i + 1];
  }

  lemma PutInFront(f: Field, fields: seq<Field>)
    requires FieldsWellFormed(fields) && WellFormed(f.value)
    requires forall i :: 0 <= i < |fields| ==> Before(f.key, fields[i].key)
    ensures FieldsWellFormed([f] + fields)
  {
    hide WellFormed;
  }

  lemma {:induction false} ItemsAreWellFormed(r: Rules, items: seq<Json>)
    requires Sound(r) && (forall i :: 0 <= i < |items| ==> WellFormed(items[i])) && SanitizeItems(r, items).Ok?
    ensures forall i :: 0 <= i < |SanitizeItems(r, items).value| ==> WellFormed(SanitizeItems(r, items).value[i])
    decreases items
  {
    hide WellFormed, SanitizeValue, Sound;
    if items != [] {
      ValueIsWellFormed(r, items[0]);
      assert forall i :: 0 <= i < |items[1..]| ==> items[1..][i] == items[i + 1];
      ItemsAreWellFormed(r, items[1..]);
    }
  }

  /** The evidence never collides with a field that stays: the result has ascending keys at every level. */
  lemma {:induction false} ValueIsWellFormed(r: Rules, v: Json)
    requires Sound(r) && WellFormed(v) && SanitizeValue(r, v).Ok?
    ensures WellFormed(SanitizeValue(r, v).value)
    decreases v
  {
    hide Sound, SanitizeItems, SanitizeFields, FieldsWellFormed;
    match v
    case Object(fields) =>
      PiecesAreWellFormed(r, fields);
      var pieces := SanitizeFields(r, fields).value;
      if pieces.1 != [] {
        OwnNames(r);
        assert !HasKey(pieces.0, "sql_evidence");
        InsertWellFormed(pieces.0, Field("sql_evidence", List(pieces.1)));
      }
    case List(items) => ItemsAreWellFormed(r, items);
    case _ =>
  }

  // ---- The loops -----------------------------------------------------------------------------

  function Join(kept: seq<Field>, evidence: seq<Json>, rest: Result<(seq<Field>, seq<Json>), Error>)
    : Result<(seq<Field>, seq<Json>), Error>
  {
    if rest.Err? then rest else Ok((kept + rest.value.0, evidence + rest.value.1))
  }

  lemma JoinNothing(rest: Result<(seq<Field>, seq<Json>), Error>)
    ensures Join([], [], rest) == rest
  {
    if rest.Ok? { assert [] + rest.value.0 == rest.value.0 && [] + rest.value.1 == rest.value.1; }
  }

  /** One more field joined. */
  lemma JoinStep(r: Rules, kept: seq<Field>, evidence: seq<Json>, fields: seq<Field>)
    requires fields != [] && SanitizeField(r, fields[0]).Ok?
    ensures var piece := SanitizeField(r, fields[0]).value;
            Join(kept, evidence, SanitizeFields(r, fields)) ==
            if piece.Kept? then Join(kept + [piece.field], evidence, SanitizeFields(r, fields[1..]))
            else Join(kept, evidence + [piece.entry], SanitizeFields(r, fields[1..]))
  {
    hide SanitizeField;
    var piece, rest := SanitizeField(r, fields[0]).value, SanitizeFields(r, fields[1..]);
    if rest.Ok? {
      if piece.Kept? { assert kept + ([piece.field] + rest.value.0) == kept + [piece.field] + rest.value.0; }
      else { assert evidence + ([piece.entry] + rest.value.1) == evidence + [piece.entry] + rest.value.1; }
    }
  }

  function Append(clean: seq<Json>, rest: Result<seq<Json>, Error>): Result<seq<Json>, Error> {
    if rest.Err? then rest else Ok(clean + rest.value)
  }

  lemma AppendStep(r: Rules, clean: seq<Json>, items: seq<Json>)
    requires items != [] && SanitizeValue(r, items[0]).Ok?
    ensures Append(clean, SanitizeItems(r, items)) ==
            Append(clean + [SanitizeValue(r, items[0]).value], SanitizeItems(r, items[1..]))
    ensures Append([], SanitizeItems(r, items)) == SanitizeItems(r, items)
  {
    hide SanitizeValue;
    var first, rest := SanitizeValue(r, items[0]).value, SanitizeItems(r, items[1..]);
    if rest.Ok? {
      assert clean + ([first] + rest.value) == clean + [first] + rest.value;
      assert [] + ([first] + rest.value) == [first] + rest.value;
    }
  }

  method SanitizeJson(r: Rules, v: Json) returns (result: Result<Json, Error>)
    ensures result == SanitizeValue(r, v)
    decreases v
  {
    match v {
      case Object(fields) =>
        var clean := SanitizeObject(r, fields);
        result := if clean.Err? then Err(clean.error) else Ok(Object(clean.value));
      case List(items) =>
        var clean := SanitizeList(r, items);
        result := if clean.Err? then Err(clean.error) else Ok(List(clean.value));
      case Text(text) => result := if r.credential(text) then Err(SensitiveDetail) else Ok(v);
      case _ => result := Ok(v);
    }
  }

  method SanitizeList(r: Rules, items: seq<Json>) returns (result: Result<seq<Json>, Error>)
    ensures result == SanitizeItems(r, items)
    decreases items
  {
    hide SanitizeValue;
    var clean: seq<Json> := [];
    assert items[0..] == items;
    for i := 0 to |items|
      invariant if i == 0 then clean == [] else SanitizeItems(r, items) == Append(clean, SanitizeItems(r, items[i..]))
    {
      assert items[i..][0] == items[i] && items[i..][1..] == items[i + 1..];
      var item := SanitizeJson(r, items[i]);
      if item.Err? { return Err(item.error); }
      AppendStep(r, clean, items[i..]);
      clean := clean + [item.value];
    }
    assert items[|items|..] == [] && clean + [] == clean;
    result := Ok(clean);
  }

  method SanitizeObject(r: Rules, fields: seq<Field>) returns (result: Result<seq<Field>, Error>)
    ensures result == SanitizeMap(r, fields)
    decreases fields
  {
    hide Reserved, Sensitive, SqlKey, SanitizeValue, Evidence;
    var kept: seq<Field>, evidence: seq<Json> := [], [];
    assert fields[0..] == fields;
    JoinNothing(SanitizeFields(r, fields));
    for i := 0 to |fields|
      invariant SanitizeFields(r, fields) == Join(kept, evidence, SanitizeFields(r, fields[i..]))
    {
      assert fields[i..][0] == fields[i] && fields[i..][1..] == fields[i + 1..];
      var f := fields[i];
      if Reserved(r, f.key) { return Err(InvalidEvent); }
      if Sensitive(r, f.key) { return Err(SensitiveDetail); }
      if SqlKey(r, f.key) {
        if !f.value.Text? || r.blank(f.value.text) { return Err(InvalidEvent); }
        JoinStep(r, kept, evidence, fields[i..]);
        evidence := evidence + [Evidence(r, f.key, f.value.text)];
      } else {
        var clean := SanitizeJson(r, f.value);
        if clean.Err? { return Err(clean.error); }
        JoinStep(r, kept, evidence, fields[i..]);
        kept := kept + [Field(f.key, clean.value)];
      }
    }
    assert fields[|fields|..] == [] && kept + [] == kept && evidence + [] == evidence;
    result := Ok(if evidence == [] then kept else Insert(kept, Field("sql_evidence", List(evidence))));
  }

  method ValidateSqlEvidence(r: Rules, v: Json) returns (ok: bool)
    ensures ok == EvidenceValid(r, v)
  {
    hide Source;
    if !v.List? || v.items == [] { return false; }
    var previous := "";
    for i := 0 to |v.items|
      invariant EntriesValid(r, v.items, "") == EntriesValid(r, v.items[i..], previous)
    {
      assert v.items[i..][0] == v.items[i] && v.items[i..][1..] == v.items[i + 1..];
      var source := Source(r, v.items[i]);
      if source.None? || !Before(previous, source.value) { return false; }
      previous := source.value;
    }
    ok := true;
  }
}