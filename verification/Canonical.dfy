/** The texts that are hashed into identities: length-prefixed lists of strings, label maps in key order
    (backend/internal/alert/model.go), delivery keys and delivery audit identifiers
    (backend/internal/alert/notification.go).

    Strings are sequences of bytes.  What is proved is about the texts; that equal hashes come from equal texts is the
    usual assumption about SHA-256. */
module Canonical {
  import opened Wrappers

  // ---- Decimal numbers -----------------------------------------------------------------------

  predicate IsDigit(c: char) {
    '0' <= c <= '9'
  }

  predicate AllDigits(s: string) {
    forall i :: 0 <= i < |s| ==> IsDigit(s[i])
  }

  function Decimal(n: nat): (s: string)
    ensures s != [] && AllDigits(s)
  {
    if n < 10 then [('0' as int + n) as char] else Decimal(n / 10) + [('0' as int + n % 10) as char]
  }

  function Number(s: string): nat {
    if s == [] || !IsDigit(s[|s| - 1]) then 0 else Number(s[..|s| - 1]) * 10 + (s[|s| - 1] as int - '0' as int)
  }

  lemma {:induction false} NumberOfDecimal(n: nat)
    ensures Number(Decimal(n)) == n
  {
    if n >= 10 {
      NumberOfDecimal(n / 10);
      assert Decimal(n)[..|Decimal(n)| - 1] == Decimal(n / 10);
    }
  }

  // ---- Length-prefixed lists -----------------------------------------------------------------

  function Frame(part: string): string {
    Decimal(|part|) + ":" + part
  }

  function Encode(parts: seq<string>): string {
    if parts == [] then "" else Frame(parts[0]) + Encode(parts[1..])
  }

  /** The position of the first colon, or the length. */
  function Colon(s: string): (i: nat)
    ensures i <= |s| && (i < |s| ==> s[i] == ':') && ':' !in s[..i]
  {
    if s == [] || s[0] == ':' then 0
    else
      var i := 1 + Colon(s[1..]);
      assert s[..i] == [s[0]] + s[1..][..i - 1];
      i
  }

  /** Reads a length-prefixed list back. */
  function Decode(s: string): Option<seq<string>>
    decreases |s|
  {
    if s == "" then Some([])
    else
      var i := Colon(s);
      if i == |s| || i + 1 + Number(s[..i]) > |s| then None
      else
        var end := i + 1 + Number(s[..i]);
        var rest := Decode(s[end..]);
        if rest.None? then None else Some([s[i + 1..end]] + rest.value)
  }

  lemma {:induction false} ColonOfDigits(digits: string, rest: string)
    requires AllDigits(digits)
    ensures Colon(digits + ":" + rest) == |digits|
  {
    if digits != "" {
      ColonOfDigits(digits[1..], rest);
      assert (digits + ":" + rest)[1..] == digits[1..] + ":" + rest;
      assert (digits + ":" + rest)[0] == digits[0];
    } else {
      assert (digits + ":" + rest)[0] == ':';
    }
  }

  lemma {:induction false} DecodeEncode(parts: seq<string>)
    ensures Decode(Encode(parts)) == Some(parts)
  {
    if parts != [] {
      var part, rest := parts[0], Encode(parts[1..]);
      var digits := Decimal(|part|);
      var s := Encode(parts);
      assert s == digits + ":" + (part + rest);
      ColonOfDigits(digits, part + rest);
      NumberOfDecimal(|part|);
      assert s[..|digits|] == digits;
      var end := |digits| + 1 + |part|;
      assert s[|digits| + 1..end] == part && s[end..] == rest;
      DecodeEncode(parts[1..]);
      assert [part] + parts[1..] == parts;
    }
  }

  /** Lists of any length with the same text are the same list. */
  lemma EncodeIsInjective(a: seq<string>, b: seq<string>)
    requires Encode(a) == Encode(b)
    ensures a == b
  {
    DecodeEncode(a);
    DecodeEncode(b);
  }

  lemma {:induction false} EncodeGrows(parts: seq<string>, part: string)
    ensures Encode(parts + [part]) == Encode(parts) + Frame(part)
  {
    if parts == [] {
      assert [part][1..] == [];
    } else {
      EncodeGrows(parts[1..], part);
      assert (parts + [part])[1..] == parts[1..] + [part];
      assert (parts + [part])[0] == parts[0];
    }
  }

  method CanonicalParts(parts: seq<string>) returns (text: string)
    ensures text == Encode(parts)
  {
    text := "";
    for i := 0 to |parts|
      invariant text == Encode(parts[..i])
    {
      EncodeGrows(parts[..i], parts[i]);
      assert parts[..i + 1] == parts[..i] + [parts[i]];
      text := text + Decimal(|parts[i]|) + ":" + parts[i];
    }
    assert parts[..|parts|] == parts;
  }

  // ---- Key order -----------------------------------------------------------------------------

  /** Byte order, a prefix before what it begins. */
  predicate Before(a: string, b: string) {
    if b == "" then false else if a == "" then true else if a[0] == b[0] then Before(a[1..], b[1..]) else a[0] < b[0]
  }

  lemma {:induction false} BeforeIsTotal(a: string, b: string)
    ensures a == b || Before(a, b) || Before(b, a)
    ensures !(Before(a, b) && Before(b, a)) && (a == b ==> !Before(a, b))
  {
    if a != "" && b != "" && a[0] == b[0] {
      BeforeIsTotal(a[1..], b[1..]);
      assert a == [a[0]] + a[1..] && b == [b[0]] + b[1..];
    }
  }

  lemma {:induction false} BeforeIsTransitive(a: string, b: string, c: string)
    requires Before(a, b) && Before(b, c)
    ensures Before(a, c)
  {
    if a != "" && a[0] == b[0] == c[0] { BeforeIsTransitive(a[1..], b[1..], c[1..]); }
  }

  ghost predicate Ascending(keys: seq<string>) {
    forall i, j :: 0 <= i < j < |keys| ==> Before(keys[i], keys[j])
  }

  ghost predicate Lists(keys: seq<string>, s: set<string>) {
    forall k :: k in keys <==> k in s
  }

  /** The first key of an ascending list is the least, so two ascending lists of the same keys are the same. */
  lemma {:induction false} AscendingIsUnique(a: seq<string>, b: seq<string>, s: set<string>)
    requires Ascending(a) && Ascending(b) && Lists(a, s) && Lists(b, s)
    ensures a == b
  {
    if a == [] {
      assert forall i :: 0 <= i < |b| ==> b[i] in b;
    } else {
      assert a[0] in s;
      assert b != [];
      SameFirst(a, b, s);
      TailLists(a, s);
      TailLists(b, s);
      AscendingIsUnique(a[1..], b[1..], s - {a[0]});
      assert a == [a[0]] + a[1..] && b == [b[0]] + b[1..];
    }
  }

  lemma SameFirst(a: seq<string>, b: seq<string>, s: set<string>)
    requires a != [] && b != [] && Ascending(a) && Ascending(b) && Lists(a, s) && Lists(b, s)
    ensures a[0] == b[0]
  {
    assert a[0] in b && b[0] in a;
    var i :| 0 <= i < |b| && b[i] == a[0];
    var j :| 0 <= j < |a| && a[j] == b[0];
    BeforeIsTotal(a[0], b[0]);
  }

  lemma TailLists(a: seq<string>, s: set<string>)
    requires a != [] && Ascending(a) && Lists(a, s)
    ensures Ascending(a[1..]) && Lists(a[1..], s - {a[0]})
  {
    forall k ensures k in a[1..] <==> k in s - {a[0]} {
      BeforeIsTotal(k, a[0]);
      if k in a[1..] { var i :| 0 <= i < |a[1..]| && a[1..][i] == k; assert a[i + 1] == k; }
      if k in s - {a[0]} { var i :| 0 <= i < |a| && a[i] == k; assert a[1..][i - 1] == k; }
    }
  }

  /** `key` put into an ascending list. */
  function Insert(keys: seq<string>, key: string): seq<string> {
    if keys == [] || Before(key, keys[0]) then [key] + keys else [keys[0]] + Insert(keys[1..], key)
  }

  function Sort(keys: seq<string>): seq<string> {
    if keys == [] then [] else Insert(Sort(keys[1..]), keys[0])
  }

  lemma {:induction false} InsertLists(keys: seq<string>, key: string)
    ensures forall k :: k in Insert(keys, key) <==> k in keys || k == key
  {
    if keys != [] && !Before(key, keys[0]) {
      InsertLists(keys[1..], key);
      assert keys == [keys[0]] + keys[1..];
    }
  }

  lemma {:induction false} InsertAscends(keys: seq<string>, key: string)
    requires Ascending(keys) && key !in keys
    ensures Ascending(Insert(keys, key))
  {
    if keys == [] {
    } else if Before(key, keys[0]) {
      forall i | 0 <= i < |keys| ensures Before(key, keys[i]) {
        if i > 0 { BeforeIsTransitive(key, keys[0], keys[i]); }
      }
    } else {
      BeforeIsTotal(key, keys[0]);
      InsertAscends(keys[1..], key);
      InsertLists(keys[1..], key);
      var rest := Insert(keys[1..], key);
      forall i | 0 <= i < |rest| ensures Before(keys[0], rest[i]) {
        assert rest[i] in rest;
        if rest[i] != key { var j :| 0 <= j < |keys[1..]| && keys[1..][j] == rest[i]; assert keys[j + 1] == rest[i]; }
      }
    }
  }

  ghost predicate Distinct(keys: seq<string>) {
    forall i, j :: 0 <= i < j < |keys| ==> keys[i] != keys[j]
  }

  lemma {:induction false} SortAscends(keys: seq<string>)
    requires Distinct(keys)
    ensures Ascending(Sort(keys)) && forall k :: k in Sort(keys) <==> k in keys
  {
    if keys != [] {
      SortAscends(keys[1..]);
      assert keys == [keys[0]] + keys[1..];
      assert keys[0] !in keys[1..];
      InsertAscends(Sort(keys[1..]), keys[0]);
      InsertLists(Sort(keys[1..]), keys[0]);
    }
  }

  // ---- Label maps ----------------------------------------------------------------------------

  /** An order in which a map's keys may be visited. */
  ghost predicate Visits(keys: seq<string>, labels: map<string, string>) {
    Distinct(keys) && Lists(keys, labels.Keys)
  }

  function Pairs(keys: seq<string>, labels: map<string, string>): seq<string>
    requires forall k :: k in keys ==> k in labels
  {
    if keys == [] then [] else [keys[0], labels[keys[0]]] + Pairs(keys[1..], labels)
  }

  function LabelsText(keys: seq<string>, labels: map<string, string>): string
    requires forall k :: k in Sort(keys) ==> k in labels
  {
    Encode(Pairs(Sort(keys), labels))
  }

  lemma VisitsSorted(keys: seq<string>, labels: map<string, string>)
    requires Visits(keys, labels)
    ensures Ascending(Sort(keys)) && Lists(Sort(keys), labels.Keys) && forall k :: k in Sort(keys) ==> k in labels
  {
    SortAscends(keys);
  }

  method CanonicalLabels(labels: map<string, string>, keys: seq<string>) returns (text: string)
    requires Visits(keys, labels)
    ensures (forall k :: k in Sort(keys) ==> k in labels) && text == LabelsText(keys, labels)
  {
    hide Sort, Visits, Ascending, Encode;
    VisitsSorted(keys, labels);
    var sorted := Sort(keys);
    var parts: seq<string> := [];
    for i := 0 to |sorted|
      invariant parts + Pairs(sorted[i..], labels) == Pairs(sorted, labels)
    {
      assert sorted[i..][0] == sorted[i] && sorted[i..][1..] == sorted[i + 1..];
      parts := parts + [sorted[i], labels[sorted[i]]];
    }
    assert parts + [] == parts;
    text := CanonicalParts(parts);
  }

  /** The text of a label map does not depend on the order in which the map is visited. */
  lemma LabelsTextIsStable(a: seq<string>, b: seq<string>, labels: map<string, string>)
    requires Visits(a, labels) && Visits(b, labels)
    ensures (forall k :: k in Sort(a) ==> k in labels) && (forall k :: k in Sort(b) ==> k in labels)
    ensures LabelsText(a, labels) == LabelsText(b, labels)
  {
    VisitsSorted(a, labels);
    VisitsSorted(b, labels);
    AscendingIsUnique(Sort(a), Sort(b), labels.Keys);
  }

  lemma {:induction false} PairsDetermine(a: seq<string>, left: map<string, string>, b: seq<string>,
                                          right: map<string, string>)
    requires (forall k :: k in a ==> k in left) && (forall k :: k in b ==> k in right)
             && Pairs(a, left) == Pairs(b, right)
    ensures a == b && forall k :: k in a ==> left[k] == right[k]
  {
    if a == [] {
      assert b == [];
    } else {
      var p, q := Pairs(a, left), Pairs(b, right);
      assert p[0] == a[0] && p[1] == left[a[0]] && p[2..] == Pairs(a[1..], left);
      assert b != [];
      assert q[0] == b[0] && q[1] == right[b[0]] && q[2..] == Pairs(b[1..], right);
      PairsDetermine(a[1..], left, b[1..], right);
      assert a == [a[0]] + a[1..] && b == [b[0]] + b[1..];
    }
  }

  /** Label maps with the same text are the same map. */
  lemma LabelsTextIsInjective(a: seq<string>, left: map<string, string>, b: seq<string>, right: map<string, string>)
    requires Visits(a, left) && Visits(b, right)
    requires (forall k :: k in Sort(a) ==> k in left) && (forall k :: k in Sort(b) ==> k in right)
    requires LabelsText(a, left) == LabelsText(b, right)
    ensures left == right
  {
    hide Sort, Encode, Ascending;
    EncodeIsInjective(Pairs(Sort(a), left), Pairs(Sort(b), right));
    PairsDetermine(Sort(a), left, Sort(b), right);
    VisitsSorted(a, left);
    VisitsSorted(b, right);
    assert left.Keys == right.Keys;
  }

  // ---- Identities ----------------------------------------------------------------------------

  function FingerprintText(tenant: string, project: string, rule: string, keys: seq<string>,
                           labels: map<string, string>): string
    requires forall k :: k in Sort(keys) ==> k in labels
  {
    Encode([tenant, project, rule, LabelsText(keys, labels)])
  }

  /** The text behind an event fingerprint determines tenant, project, rule and label map, and nothing else enters
      it. */
  lemma FingerprintIdentifies(tenant: string, project: string, rule: string, a: seq<string>, left: map<string, string>,
                              tenant': string, project': string, rule': string, b: seq<string>,
                                right: map<string, string>)
    requires Visits(a, left) && Visits(b, right)
    ensures (forall k :: k in Sort(a) ==> k in left) && (forall k :: k in Sort(b) ==> k in right)
    ensures FingerprintText(tenant, project, rule, a, left) == FingerprintText(tenant', project', rule', b, right)
       <==> tenant == tenant' && project == project' && rule == rule' && left == right
  {
    hide Sort, Encode, Visits;
    VisitsSorted(a, left);
    VisitsSorted(b, right);
    var p, q := [tenant, project, rule, LabelsText(a, left)], [tenant', project', rule', LabelsText(b, right)];
    if Encode(p) == Encode(q) {
      EncodeIsInjective(p, q);
      assert p[0] == q[0] && p[1] == q[1] && p[2] == q[2] && p[3] == q[3];
      LabelsTextIsInjective(a, left, b, right);
    }
    if left == right { LabelsTextIsStable(a, b, left); }
  }

  function DeliveryKeyText(event: string, state: string, channel: string, policy: string, policyVersion: string,
                           templateVersion: string): string {
    Encode(["dbpilot.delivery.v2", event, state, channel, policy, policyVersion, templateVersion])
  }

  /** Deliveries with the same key agree in event, state, channel, policy and both versions. */
  lemma DeliveryKeyIdentifies(event: string, state: string, channel: string, policy: string, policyVersion: string,
                              templateVersion: string,
                              event': string, state': string, channel': string, policy': string, policyVersion': string,
                                templateVersion': string)
    requires DeliveryKeyText(event, state, channel, policy, policyVersion, templateVersion)
          == DeliveryKeyText(event', state', channel', policy', policyVersion', templateVersion')
    ensures event == event' && state == state' && channel == channel' && policy == policy'
    ensures policyVersion == policyVersion' && templateVersion == templateVersion'
  {
    hide Encode;
    var p := ["dbpilot.delivery.v2", event, state, channel, policy, policyVersion, templateVersion];
    var q := ["dbpilot.delivery.v2", event', state', channel', policy', policyVersion', templateVersion'];
    EncodeIsInjective(p, q);
    assert p[1] == q[1] && p[2] == q[2] && p[3] == q[3] && p[4] == q[4] && p[5] == q[5] && p[6] == q[6];
  }

  /** No separators here: the identifier has a fixed length and no action ends in a digit. */
  function AuditIdText(delivery: string, action: string, attempt: nat): string {
    delivery + action + Decimal(attempt)
  }

  predicate EndsPlain(action: string) {
    action != "" && !IsDigit(action[|action| - 1])
  }

  function TrailingDigits(s: string): nat {
    if s == "" || !IsDigit(s[|s| - 1]) then 0 else 1 + TrailingDigits(s[..|s| - 1])
  }

  lemma {:induction false} DigitsTrail(a: string, m: string)
    requires EndsPlain(a) && AllDigits(m)
    ensures TrailingDigits(a + m) == |m|
  {
    if m == "" {
      assert a + m == a;
    } else {
      DigitsTrail(a, m[..|m| - 1]);
      assert (a + m)[..|a + m| - 1] == a + m[..|m| - 1];
    }
  }

  lemma SplitAtDigits(a: string, m: string, b: string, n: string)
    requires EndsPlain(a) && EndsPlain(b) && AllDigits(m) && AllDigits(n) && a + m == b + n
    ensures a == b && m == n
  {
    DigitsTrail(a, m);
    DigitsTrail(b, n);
    assert a == (a + m)[..|a|] && b == (b + n)[..|b|] && m == (a + m)[|a|..] && n == (b + n)[|b|..];
  }

  /** Audit records of deliveries have the same identifier text only for the same delivery, action and attempt. */
  lemma AuditIdIdentifies(delivery: string, action: string, attempt: nat, delivery': string, action': string,
                          attempt': nat)
    requires |delivery| == |delivery'| && EndsPlain(action) && EndsPlain(action')
    requires AuditIdText(delivery, action, attempt) == AuditIdText(delivery', action', attempt')
    ensures delivery == delivery' && action == action' && attempt == attempt'
  {
    var s := AuditIdText(delivery, action, attempt);
    assert delivery == s[..|delivery|] && delivery' == s[..|delivery|];
    assert action + Decimal(attempt) == s[|delivery|..] && action' + Decimal(attempt') == s[|delivery|..];
    SplitAtDigits(action, Decimal(attempt), action', Decimal(attempt'));
    NumberOfDecimal(attempt);
    NumberOfDecimal(attempt');
  }
}
