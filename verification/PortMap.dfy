/** The ICE host port override: a single port, or a comma-separated list of address/port pairs. */
module PortMap {
  import opened Wrappers

  const MAX_UINT64 := 0xFFFF_FFFF_FFFF_FFFF
  const MAX_INT64 := 0x7FFF_FFFF_FFFF_FFFF
  const MIN_INT64 := -0x8000_0000_0000_0000

  // ----- strings.Split and its inverse

  function Split(s: string, sep: char): (fields: seq<string>)
    ensures |fields| >= 1
  {
    if s == "" then [""] else
    var rest := Split(s[1..], sep);
    if s[0] == sep then [""] + rest else [[s[0]] + rest[0]] + rest[1..]
  }

  function Join(fields: seq<string>, sep: char): string {
    if fields == [] then "" else if |fields| == 1 then fields[0]
    else fields[0] + [sep] + Join(fields[1..], sep)
  }

  predicate Free(s: string, c: char) { c !in s }

  lemma {:induction false} SplitFirst(a: string, sep: char, rest: string)
    requires Free(a, sep)
    ensures Split(a, sep) == [a]
    ensures Split(a + [sep] + rest, sep) == [a] + Split(rest, sep)
  {
    if a == "" {
      assert a + [sep] + rest == [sep] + rest;
    } else {
      SplitFirst(a[1..], sep, rest);
      assert (a + [sep] + rest)[1..] == a[1..] + [sep] + rest;
      assert [a[0]] + a[1..] == a;
    }
  }

  lemma {:induction false} SplitOfJoin(fields: seq<string>, sep: char)
    requires fields != [] && forall i | 0 <= i < |fields| :: Free(fields[i], sep)
    ensures Split(Join(fields, sep), sep) == fields
  {
    if |fields| == 1 {
      SplitFirst(fields[0], sep, "");
    } else {
      SplitFirst(fields[0], sep, Join(fields[1..], sep));
      SplitOfJoin(fields[1..], sep);
      assert [fields[0]] + fields[1..] == fields;
    }
  }

  lemma {:induction false} JoinOfSplit(s: string, sep: char)
    ensures Join(Split(s, sep), sep) == s
  {
    if s != "" {
      JoinOfSplit(s[1..], sep);
      var rest := Split(s[1..], sep);
      if s[0] == sep {
        assert ([""] + rest)[1..] == rest;
      } else {
        var fields := [[s[0]] + rest[0]] + rest[1..];
        assert fields[1..] == rest[1..];
        assert s == [s[0]] + Join(rest, sep);
      }
    }
  }

  // ----- strconv.Atoi and its inverse

  predicate IsDigit(c: char) { '0' <= c <= '9' }

  function DigitValue(c: char): nat
    requires IsDigit(c)
  {
    c as int - '0' as int
  }

  datatype Scanned = Value(n: nat) | Syntax | Overflow

  /** Digits left to right; the overflow of 64 bits is reported before anything further is read. */
  function Scan(s: string, n: nat): Scanned {
    if s == "" then Value(n)
    else if !IsDigit(s[0]) then Syntax
    else
      var n1 := 10 * n + DigitValue(s[0]);
      if n1 > MAX_UINT64 then Overflow else Scan(s[1..], n1)
  }

  /** Go returns a value beside the error: zero for bad syntax, the nearest bound out of range. */
  datatype Parsed = Parsed(value: int, ok: bool)

  function Unsigned(s: string): string {
    if s != "" && (s[0] == '-' || s[0] == '+') then s[1..] else s
  }

  function Atoi(s: string): Parsed {
    var negative := s != "" && s[0] == '-';
    if Unsigned(s) == "" then Parsed(0, false) else
    match Scan(Unsigned(s), 0)
    case Syntax => Parsed(0, false)
    case Overflow => Parsed(if negative then MIN_INT64 else MAX_INT64, false)
    case Value(n) =>
      if !negative && n > MAX_INT64 then Parsed(MAX_INT64, false)
      else if negative && 0 - n < MIN_INT64 then Parsed(MIN_INT64, false)
      else Parsed(if negative then 0 - n else n, true)
  }

  function DigitOf(d: nat): char
    requires d < 10
  {
    '0' + d as char
  }

  function Decimal(n: nat): string {
    if n < 10 then [DigitOf(n)] else Decimal(n / 10) + [DigitOf(n % 10)]
  }

  function Itoa(n: int): string {
    if n < 0 then "-" + Decimal(-n) else Decimal(n)
  }

  lemma {:induction false} ScanDecimal(n: nat, rest: string)
    requires n <= MAX_UINT64
    ensures Scan(Decimal(n) + rest, 0) == Scan(rest, n)
  {
    if n < 10 {
      assert (Decimal(n) + rest)[1..] == rest;
    } else {
      ScanDecimal(n / 10, [DigitOf(n % 10)] + rest);
      assert Decimal(n / 10) + ([DigitOf(n % 10)] + rest) == Decimal(n) + rest;
      assert ([DigitOf(n % 10)] + rest)[1..] == rest;
    }
  }

  lemma {:induction false} DecimalIsDigits(n: nat)
    ensures Decimal(n) != "" && forall i | 0 <= i < |Decimal(n)| :: IsDigit(Decimal(n)[i])
  {
    if n >= 10 { DecimalIsDigits(n / 10); }
  }

  /** Printing a 64-bit integer and parsing it back gives the integer. */
  lemma AtoiOfItoa(n: int)
    requires MIN_INT64 <= n <= MAX_INT64
    ensures Atoi(Itoa(n)) == Parsed(n, true)
  {
    var m := if n < 0 then -n else n;
    DecimalIsDigits(m);
    ScanDecimal(m, "");
    assert Decimal(m) + "" == Decimal(m);
    assert IsDigit(Decimal(m)[0]);
    if n < 0 { assert Itoa(n)[1..] == Decimal(m); }
  }

  // ----- SinglePort, ParseMap, IsValid

  function SinglePort(s: string): int {
    Atoi(s).value
  }

  function ParsePair(field: string): Result<(string, int)> {
    var pair := Split(field, '/');
    if |pair| != 2 || !Atoi(pair[1]).ok then Err else Ok((pair[0], Atoi(pair[1]).value))
  }

  /** The loop of ParseMap over the remaining fields. */
  function AddAll(fields: seq<string>, m: map<string, int>, ports: set<int>): Result<map<string, int>> {
    if fields == [] then Ok(m) else
    match ParsePair(fields[0])
    case Err => Err
    case Ok((key, port)) =>
      if key in m || port in ports then Err else AddAll(fields[1..], m[key := port], ports + {port})
  }

  /** A nil map is returned for the empty string. */
  function ParseSpec(s: string): Result<map<string, int>> {
    if s == "" then Ok(map[]) else AddAll(Split(s, ','), map[], {})
  }

  method ParseMap(s: Option<string>) returns (r: Result<map<string, int>>)
    ensures r == match s case None => Err case Some(text) => ParseSpec(text)
  {
    if s == None {
      return Err;
    }
    if s.value == "" {
      return Ok(map[]);
    }
    var fields := Split(s.value, ',');
    var m: map<string, int> := map[];
    var ports: set<int> := {};
    for i := 0 to |fields|
      invariant AddAll(fields[i..], m, ports) == AddAll(fields, map[], {})
    {
      assert fields[i..][1..] == fields[i + 1..];
      var pair := Split(fields[i], '/');
      if |pair| != 2 {
        return Err;
      }
      var port := Atoi(pair[1]);
      if !port.ok {
        return Err;
      }
      if pair[0] in m {
        return Err;
      }
      if port.value in ports {
        return Err;
      }
      m := m[pair[0] := port.value];
      ports := ports + {port.value};
    }
    r := Ok(m);
  }

  // ----- what a successful parse is

  predicate AllPairs(fields: seq<string>) {
    forall i | 0 <= i < |fields| :: ParsePair(fields[i]).Ok?
  }

  function KeyOf(field: string): string
    requires ParsePair(field).Ok?
  {
    ParsePair(field).value.0
  }

  function PortOf(field: string): int
    requires ParsePair(field).Ok?
  {
    ParsePair(field).value.1
  }

  ghost predicate Apart(fields: seq<string>)
    requires AllPairs(fields)
  {
    forall i, j | 0 <= i < j < |fields| ::
        KeyOf(fields[i]) != KeyOf(fields[j]) && PortOf(fields[i]) != PortOf(fields[j])
  }

  ghost predicate Clear(fields: seq<string>, m: map<string, int>, ports: set<int>)
    requires AllPairs(fields)
  {
    forall i | 0 <= i < |fields| :: KeyOf(fields[i]) !in m && PortOf(fields[i]) !in ports
  }

  ghost predicate Injective(m: map<string, int>) {
    forall a, b | a in m && b in m && m[a] == m[b] :: a == b
  }

  /** The loop succeeds exactly when every field is a pair and no address or port repeats. */
  lemma {:induction false} AddAllSucceedsIff(fields: seq<string>, m: map<string, int>, ports: set<int>)
    ensures AddAll(fields, m, ports).Ok? <==> AllPairs(fields) && Apart(fields) && Clear(fields, m, ports)
  {
    if fields != [] && ParsePair(fields[0]).Ok? {
      var key, port := KeyOf(fields[0]), PortOf(fields[0]);
      var rest := fields[1..];
      if key !in m && port !in ports {
        AddAllSucceedsIff(rest, m[key := port], ports + {port});
        if AllPairs(rest) {
          assert AllPairs(fields) by {
            forall i | 0 <= i < |fields| ensures ParsePair(fields[i]).Ok? {
              if i > 0 { assert fields[i] == rest[i - 1]; }
            }
          }
          AddOne(fields, m, ports);
        }
      }
    }
  }

  /** Taking the first pair in turns the conditions on all fields into those on the rest. */
  lemma AddOne(fields: seq<string>, m: map<string, int>, ports: set<int>)
    requires fields != [] && AllPairs(fields) && AllPairs(fields[1..])
    requires KeyOf(fields[0]) !in m && PortOf(fields[0]) !in ports
    ensures Apart(fields) && Clear(fields, m, ports) <==>
            && Apart(fields[1..])
            && Clear(fields[1..], m[KeyOf(fields[0]) := PortOf(fields[0])], ports + {PortOf(fields[0])})
  {
    var rest := fields[1..];
    var m', ports' := m[KeyOf(fields[0]) := PortOf(fields[0])], ports + {PortOf(fields[0])};
    assert forall i | 0 <= i < |rest| :: rest[i] == fields[i + 1];
    if Apart(rest) && Clear(rest, m', ports') {
      forall i, j | 0 <= i < j < |fields|
        ensures KeyOf(fields[i]) != KeyOf(fields[j]) && PortOf(fields[i]) != PortOf(fields[j])
      {
        assert fields[j] == rest[j - 1];
        if i > 0 { assert fields[i] == rest[i - 1]; }
      }
      forall i | 0 <= i < |fields| ensures KeyOf(fields[i]) !in m && PortOf(fields[i]) !in ports {
        if i > 0 { assert fields[i] == rest[i - 1]; }
      }
    }
  }

  /** A successful parse keeps what was there, adds one entry per field, and stays injective. */
  lemma {:induction false} AddAllResult(fields: seq<string>, m: map<string, int>, ports: set<int>)
    requires Injective(m) && (forall k | k in m :: m[k] in ports) && AddAll(fields, m, ports).Ok?
    ensures var r := AddAll(fields, m, ports).value;
            && Injective(r) && |r| == |m| + |fields|
            && (forall k | k in m :: k in r && r[k] == m[k])
            && (forall i | 0 <= i < |fields| ::
                  ParsePair(fields[i]).Ok? && KeyOf(fields[i]) in r && r[KeyOf(fields[i])] == PortOf(fields[i]))
  {
    if fields != [] {
      var key, port := KeyOf(fields[0]), PortOf(fields[0]);
      var m' := m[key := port];
      assert m'.Keys == m.Keys + {key};
      AddAllResult(fields[1..], m', ports + {port});
      assert key in m' && m'[key] == port;
      assert forall i | 0 < i < |fields| :: fields[i] == fields[1..][i - 1];
    }
  }

  /** Every successful parse of a non-empty string: one entry per comma field, and no two alike. */
  lemma ParseIsInjective(s: string)
    requires s != "" && ParseSpec(s).Ok?
    ensures Injective(ParseSpec(s).value) && |ParseSpec(s).value| == |Split(s, ',')|
  {
    AddAllResult(Split(s, ','), map[], {});
  }

  // ----- printing a map and reading it back

  function PrintPair(key: string, port: int): string {
    key + "/" + Itoa(port)
  }

  function PrintAll(pairs: seq<(string, int)>): seq<string> {
    if pairs == [] then [] else [PrintPair(pairs[0].0, pairs[0].1)] + PrintAll(pairs[1..])
  }

  function Print(pairs: seq<(string, int)>): string {
    Join(PrintAll(pairs), ',')
  }

  lemma ItoaIsPlain(n: int, c: char)
    requires c == ',' || c == '/'
    ensures Free(Itoa(n), c) && Itoa(n) != ""
  {
    DecimalIsDigits(if n < 0 then -n else n);
  }

  lemma PrintPairParses(key: string, port: int)
    requires Free(key, '/') && Free(key, ',') && MIN_INT64 <= port <= MAX_INT64
    ensures ParsePair(PrintPair(key, port)) == Ok((key, port)) && Free(PrintPair(key, port), ',')
  {
    ItoaIsPlain(port, '/');
    ItoaIsPlain(port, ',');
    assert PrintPair(key, port) == key + ['/'] + Itoa(port);
    SplitFirst(key, '/', Itoa(port));
    SplitFirst(Itoa(port), '/', "");
    AtoiOfItoa(port);
  }

  /** The pairs list a map: each entry once, in some order. */
  ghost predicate Lists(pairs: seq<(string, int)>, m: map<string, int>) {
    && |pairs| == |m|
    && (forall i | 0 <= i < |pairs| :: pairs[i].0 in m && m[pairs[i].0] == pairs[i].1)
    && (forall i, j | 0 <= i < j < |pairs| :: pairs[i].0 != pairs[j].0)
  }

  ghost predicate Printable(m: map<string, int>) {
    Injective(m) && forall k | k in m :: Free(k, ',') && Free(k, '/') && MIN_INT64 <= m[k] <= MAX_INT64
  }

  lemma {:induction false} PrintAllParses(pairs: seq<(string, int)>)
    requires forall i | 0 <= i < |pairs| ::
        Free(pairs[i].0, ',') && Free(pairs[i].0, '/') && MIN_INT64 <= pairs[i].1 <= MAX_INT64
    ensures |PrintAll(pairs)| == |pairs|
    ensures forall i | 0 <= i < |pairs| ::
        ParsePair(PrintAll(pairs)[i]) == Ok(pairs[i]) && Free(PrintAll(pairs)[i], ',')
  {
    if pairs != [] {
      PrintAllParses(pairs[1..]);
      PrintPairParses(pairs[0].0, pairs[0].1);
    }
  }

  lemma PrintIsNotEmpty(pairs: seq<(string, int)>)
    requires pairs != []
    requires forall i | 0 <= i < |pairs| ::
        Free(pairs[i].0, ',') && Free(pairs[i].0, '/') && MIN_INT64 <= pairs[i].1 <= MAX_INT64
    ensures Print(pairs) != ""
  {
    PrintAllParses(pairs);
    SplitOfJoin(PrintAll(pairs), ',');
    assert Split("", ',') == [""] && Split("", '/') == [""];
    assert ParsePair(PrintAll(pairs)[0]) == Ok(pairs[0]);
  }

  /** The round trip: any printable non-empty map, printed in any order, parses back to itself. */
  lemma ParseOfPrint(m: map<string, int>, pairs: seq<(string, int)>)
    requires m != map[] && Printable(m) && Lists(pairs, m)
    ensures ParseSpec(Print(pairs)) == Ok(m)
  {
    assert forall i | 0 <= i < |pairs| :: pairs[i].0 in m;
    PrintAllParses(pairs);
    var fields := PrintAll(pairs);
    assert pairs != [];
    SplitOfJoin(fields, ',');
    PrintIsNotEmpty(pairs);
    assert forall i | 0 <= i < |fields| :: KeyOf(fields[i]) == pairs[i].0 && PortOf(fields[i]) == pairs[i].1;
    assert Apart(fields);
    AddAllSucceedsIff(fields, map[], {});
    AddAllResult(fields, map[], {});
    var r := AddAll(fields, map[], {}).value;
    ListedMapIsWhole(pairs, m, r);
  }

  lemma ListedMapIsWhole(pairs: seq<(string, int)>, m: map<string, int>, r: map<string, int>)
    requires Lists(pairs, m) && Lists(pairs, r)
    ensures m == r
  {
    KeysOfPairs(pairs, m);
    KeysOfPairs(pairs, r);
  }

  ghost function Keys(pairs: seq<(string, int)>): set<string> {
    set i | 0 <= i < |pairs| :: pairs[i].0
  }

  lemma KeysOfPairs(pairs: seq<(string, int)>, m: map<string, int>)
    requires Lists(pairs, m)
    ensures Keys(pairs) == m.Keys
    ensures forall k | k in m :: exists i :: 0 <= i < |pairs| && pairs[i] == (k, m[k])
  {
    KeysCount(pairs);
    SubsetOfSameSize(Keys(pairs), m.Keys);
    forall k | k in m ensures exists i :: 0 <= i < |pairs| && pairs[i] == (k, m[k]) {
      assert k in Keys(pairs);
      var i :| 0 <= i < |pairs| && pairs[i].0 == k;
      assert pairs[i] == (k, m[k]);
    }
  }

  lemma {:induction false} KeysCount(pairs: seq<(string, int)>)
    requires forall i, j | 0 <= i < j < |pairs| :: pairs[i].0 != pairs[j].0
    ensures |Keys(pairs)| == |pairs|
  {
    if pairs != [] {
      var n := |pairs| - 1;
      KeysCount(pairs[..n]);
      assert Keys(pairs) == Keys(pairs[..n]) + {pairs[n].0};
      assert pairs[n].0 !in Keys(pairs[..n]);
    }
  }

  lemma SubsetOfSameSize(a: set<string>, b: set<string>)
    requires a <= b && |a| == |b|
    ensures a == b
  {
    assert |b - a| == |b| - |a|;
    assert b == a + (b - a);
  }

  // ----- the two readings of one string

  function DecimalValue(s: string): nat
    requires forall i | 0 <= i < |s| :: IsDigit(s[i])
  {
    if s == "" then 0 else 10 * DecimalValue(s[..|s| - 1]) + DigitValue(s[|s| - 1])
  }

  /** The string starts, after its sign, with a number too large for 64 bits. */
  ghost predicate StartsTooLarge(s: string) {
    exists k :: TooLargeAt(Unsigned(s), k)
  }

  ghost predicate TooLargeAt(s: string, k: nat) {
    k <= |s| && (forall i | 0 <= i < k :: IsDigit(s[i])) && DecimalValue(s[..k]) > MAX_UINT64
  }

  lemma {:induction false} SlashIsNoDigit(s: string, n: nat)
    requires '/' in s
    ensures !Scan(s, n).Value?
  {
    if IsDigit(s[0]) && 10 * n + DigitValue(s[0]) <= MAX_UINT64 {
      SlashIsNoDigit(s[1..], 10 * n + DigitValue(s[0]));
    }
  }

  /** Scan, started after the first i digits, overflows exactly when some longer run of digits does. */
  lemma {:induction false} ScanOverflows(s: string, i: nat)
    requires i <= |s| && (forall j | 0 <= j < i :: IsDigit(s[j])) && DecimalValue(s[..i]) <= MAX_UINT64
    ensures Scan(s[i..], DecimalValue(s[..i])).Overflow? <==> exists k :: i < k && TooLargeAt(s, k)
    decreases |s| - i
  {
    if i < |s| && IsDigit(s[i]) {
      assert s[..i + 1][..i] == s[..i];
      assert s[i..][1..] == s[i + 1..];
      if DecimalValue(s[..i + 1]) > MAX_UINT64 {
        assert TooLargeAt(s, i + 1);
      } else {
        ScanOverflows(s, i + 1);
        assert !TooLargeAt(s, i + 1);
      }
    }
  }

  /** A string that parses as a map is taken for a single port exactly when it starts with a number
      too large for 64 bits; so the dispatch in IsValid is unambiguous for all others. */
  lemma MapReadAsPortIff(s: string)
    requires s != "" && ParseSpec(s).Ok?
    ensures SinglePort(s) != 0 <==> StartsTooLarge(s)
  {
    AddAllResult(Split(s, ','), map[], {});
    PairHasSlash(Split(s, ',')[0]);
    FieldOccurs(s, ',', '/');
    assert '/' in Unsigned(s);
    SlashIsNoDigit(Unsigned(s), 0);
    var u := Unsigned(s);
    assert u[..0] == "" && u[0..] == u;
    ScanOverflows(u, 0);
    assert forall k | TooLargeAt(u, k) :: k > 0;
  }

  lemma PairHasSlash(field: string)
    requires ParsePair(field).Ok?
    ensures '/' in field
  {
    if Free(field, '/') { SplitFirst(field, '/', ""); }
  }

  lemma {:induction false} FieldOccurs(s: string, sep: char, c: char)
    requires c in Split(s, sep)[0]
    ensures c in s
  {
    if s != "" && s[0] != sep && s[0] != c {
      FieldOccurs(s[1..], sep, c);
    }
  }

  lemma {:induction false} ValueOfDecimal(n: nat)
    ensures (forall i | 0 <= i < |Decimal(n)| :: IsDigit(Decimal(n)[i])) && DecimalValue(Decimal(n)) == n
  {
    DecimalIsDigits(n);
    if n >= 10 {
      ValueOfDecimal(n / 10);
      assert Decimal(n)[..|Decimal(n)| - 1] == Decimal(n / 10);
    } else {
      assert Decimal(n)[..0] == "";
    }
  }

  lemma OnePairParses(key: string, port: int)
    requires Free(key, ',') && Free(key, '/') && MIN_INT64 <= port <= MAX_INT64
    ensures ParseSpec(Print([(key, port)])) == Ok(map[key := port]) && Print([(key, port)]) == PrintPair(key, port)
  {
    var m := map[key := port];
    assert key in m && m.Keys == {key} && |m.Keys| == 1;
    ParseOfPrint(m, [(key, port)]);
    assert [(key, port)][1..] == [];
    assert PrintAll([(key, port)]) == [PrintPair(key, port)];
  }

  /** The exception is real: an address spelled as a 20-digit number, with a port, parses as a map, and
      yet is read as a single port that is out of range. */
  lemma LargeAddressIsReadAsPort(n: nat)
    requires n > MAX_UINT64
    ensures var s := Print([(Decimal(n), 80)]);
            ParseSpec(s) == Ok(map[Decimal(n) := 80]) && SinglePort(s) == MAX_INT64
  {
    var key := Decimal(n);
    DecimalIsDigits(n);
    assert Free(key, ',') && Free(key, '/');
    OnePairParses(key, 80);
    ValueOfDecimal(n);
    LargePrefixOverflows(key, "/" + Itoa(80));
    assert key + ("/" + Itoa(80)) == PrintPair(key, 80);
  }

  lemma LargePrefixOverflows(key: string, rest: string)
    requires key != "" && (forall i | 0 <= i < |key| :: IsDigit(key[i])) && DecimalValue(key) > MAX_UINT64
    ensures SinglePort(key + rest) == MAX_INT64
  {
    var s := key + rest;
    assert IsDigit(s[0]) && Unsigned(s) == s;
    assert s[..|key|] == key;
    assert TooLargeAt(s, |key|);
    assert s[..0] == "" && s[0..] == s;
    ScanOverflows(s, 0);
  }

  // ----- which texts are valid

  /** A port number in range, or address/port pairs without repetition that do not start with a number too
      large for 64 bits. */
  ghost predicate ValidText(s: string) {
    || (Atoi(s).ok && 80 <= Atoi(s).value <= 49151)
    || (AllPairs(Split(s, ',')) && Apart(Split(s, ',')) && !StartsTooLarge(s))
  }

  /** Text that parses as a map is no number, and a port out of the 64-bit range is out of the allowed one. */
  lemma PortOrMap(s: string)
    requires s != ""
    ensures ParseSpec(s).Ok? ==> !Atoi(s).ok
    ensures !Atoi(s).ok && SinglePort(s) != 0 ==> !(80 <= SinglePort(s) <= 49151)
  {
    if ParseSpec(s).Ok? {
      AddAllResult(Split(s, ','), map[], {});
      PairHasSlash(Split(s, ',')[0]);
      FieldOccurs(s, ',', '/');
      assert '/' in Unsigned(s);
      SlashIsNoDigit(Unsigned(s), 0);
    }
  }

  /** The dispatch on SinglePort accepts exactly the valid texts. */
  lemma DispatchIsValid(s: string)
    requires s != ""
    ensures ValidText(s) <==>
            if SinglePort(s) != 0 then 80 <= SinglePort(s) <= 49151 else ParseSpec(s).Ok?
  {
    PortOrMap(s);
    AddAllSucceedsIff(Split(s, ','), map[], {});
    if ParseSpec(s).Ok? {
      MapReadAsPortIff(s);
    }
  }

  method IsValid(s: Option<string>) returns (ok: bool)
    ensures ok <==> s.Some? && (s.value == "" || ValidText(s.value))
  {
    if s == None {
      return false;
    }
    if s.value == "" {
      return true;
    }
    DispatchIsValid(s.value);
    var port := SinglePort(s.value);
    if port != 0 {
      return 80 <= port <= 49151;
    }
    var parsed := ParseMap(s);
    ok := parsed.Ok?;
  }

  // ----- reading a text and printing it back

  function PairsOf(fields: seq<string>): seq<(string, int)>
    requires AllPairs(fields)
  {
    if fields == [] then [] else [ParsePair(fields[0]).value] + PairsOf(fields[1..])
  }

  /** The port is written the way it is printed: no plus sign, no leading zeros, no minus zero. */
  predicate Canonical(field: string)
    requires ParsePair(field).Ok?
  {
    Split(field, '/')[1] == Itoa(PortOf(field))
  }

  lemma FieldPrintsIff(field: string)
    requires ParsePair(field).Ok?
    ensures PrintPair(KeyOf(field), PortOf(field)) == field <==> Canonical(field)
  {
    var pair := Split(field, '/');
    JoinOfSplit(field, '/');
    assert Join(pair[1..], '/') == pair[1];
    assert field == KeyOf(field) + "/" + pair[1];
    SameTail(KeyOf(field) + "/", pair[1], Itoa(PortOf(field)));
  }

  lemma SameTail(head: string, a: string, b: string)
    ensures head + a == head + b <==> a == b
  {
    assert (head + a)[|head|..] == a && (head + b)[|head|..] == b;
  }

  lemma {:induction false} PairsAt(fields: seq<string>)
    requires AllPairs(fields)
    ensures |PairsOf(fields)| == |fields|
    ensures forall i | 0 <= i < |fields| :: PairsOf(fields)[i] == (KeyOf(fields[i]), PortOf(fields[i]))
  {
    if fields != [] {
      PairsAt(fields[1..]);
    }
  }

  lemma {:induction false} PrintAllAt(pairs: seq<(string, int)>)
    ensures |PrintAll(pairs)| == |pairs|
    ensures forall i | 0 <= i < |pairs| :: PrintAll(pairs)[i] == PrintPair(pairs[i].0, pairs[i].1)
  {
    if pairs != [] {
      PrintAllAt(pairs[1..]);
    }
  }

  lemma PrintsIff(fields: seq<string>)
    requires AllPairs(fields)
    ensures PrintAll(PairsOf(fields)) == fields <==> forall i | 0 <= i < |fields| :: Canonical(fields[i])
  {
    PairsAt(fields);
    PrintAllAt(PairsOf(fields));
    var printed := PrintAll(PairsOf(fields));
    forall i | 0 <= i < |fields| ensures printed[i] == fields[i] <==> Canonical(fields[i]) {
      FieldPrintsIff(fields[i]);
    }
    assert printed == fields <==> forall i | 0 <= i < |fields| :: printed[i] == fields[i];
  }

  /** The round trip the other way: a text that parses, printed back in its own order, is the text itself if
      and only if every port in it is written canonically. */
  lemma PrintOfParseIff(s: string)
    requires s != "" && ParseSpec(s).Ok?
    ensures var fields := Split(s, ',');
            && AllPairs(fields) && Lists(PairsOf(fields), ParseSpec(s).value)
            && (Print(PairsOf(fields)) == s <==> forall i | 0 <= i < |fields| :: Canonical(fields[i]))
  {
    var fields := Split(s, ',');
    AddAllSucceedsIff(fields, map[], {});
    AddAllResult(fields, map[], {});
    PairsAt(fields);
    PrintsIff(fields);
    JoinOfSplit(s, ',');
    var printed := PrintAll(PairsOf(fields));
    if Print(PairsOf(fields)) == s {
      PrintedFieldsArePlain(s, fields);
      SplitOfJoin(printed, ',');
    }
  }

  lemma PrintedFieldsArePlain(s: string, fields: seq<string>)
    requires fields == Split(s, ',') && AllPairs(fields)
    ensures var printed := PrintAll(PairsOf(fields));
            |printed| == |fields| && forall i | 0 <= i < |printed| :: Free(printed[i], ',')
  {
    var pairs := PairsOf(fields);
    PairsAt(fields);
    forall i | 0 <= i < |pairs|
      ensures Free(pairs[i].0, ',') && Free(pairs[i].0, '/') && MIN_INT64 <= pairs[i].1 <= MAX_INT64
    {
      SplitIsFree(s, ',', i);
      PairIsPlain(fields[i]);
    }
    PrintAllParses(pairs);
  }

  lemma {:induction false} SplitIsFree(s: string, sep: char, i: nat)
    requires i < |Split(s, sep)|
    ensures Free(Split(s, sep)[i], sep)
  {
    if s != "" {
      var rest := Split(s[1..], sep);
      if s[0] == sep {
        if i > 0 {
          SplitIsFree(s[1..], sep, i - 1);
        }
      } else {
        SplitIsFree(s[1..], sep, i);
      }
    }
  }

  lemma PairIsPlain(field: string)
    requires ParsePair(field).Ok? && Free(field, ',')
    ensures Free(KeyOf(field), ',') && Free(KeyOf(field), '/') && MIN_INT64 <= PortOf(field) <= MAX_INT64
  {
    SplitIsFree(field, '/', 0);
    JoinOfSplit(field, '/');
    var pair := Split(field, '/');
    assert field == pair[0] + ['/'] + Join(pair[1..], '/');
  }
}
