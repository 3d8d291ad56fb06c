/** Directory names: decimal numbers, the `tpgt_`, `lun_` and `<type>_<id>` names of the
    kernel tree, and qualified target names. */
module Names {
  import opened Types

  // Decimal numbers.

  predicate IsDigit(c: char) {
    '0' <= c <= '9'
  }

  function Digit(d: int): char
    requires 0 <= d < 10
  {
    '0' + d as char
  }

  /** What Go's `%d` prints for a non-negative number. */
  function Dec(n: nat): (s: string)
    ensures |s| > 0
    ensures forall i | 0 <= i < |s| :: IsDigit(s[i])
  {
    if n < 10 then [Digit(n)] else Dec(n / 10) + [Digit(n % 10)]
  }

  /** The value of a digit string, or None when it is empty or has another character. */
  function Value(s: string): Option<nat> {
    if s == [] then None
    else
      var c := s[|s| - 1];
      if !IsDigit(c) then None
      else
        var d := c as int - '0' as int;
        if |s| == 1 then Some(d)
        else
          match Value(s[..|s| - 1])
          case None => None
          case Some(n) => Some(10 * n + d)
  }

  /** `strconv.ParseUint(s, 10, bits)` for `limit == 2^bits`. */
  function ParseUint(s: string, limit: nat): Option<nat> {
    match Value(s)
    case None => None
    case Some(n) => if n < limit then Some(n) else None
  }

  lemma {:induction false} ValueOfDec(n: nat)
    ensures Value(Dec(n)) == Some(n)
  {
    if n >= 10 {
      ValueOfDec(n / 10);
      assert Dec(n)[..|Dec(n)| - 1] == Dec(n / 10);
    }
  }

  /** Printing then parsing gives the number back exactly when it fits. */
  lemma ParseOfDec(n: nat, limit: nat)
    ensures ParseUint(Dec(n), limit) == if n < limit then Some(n) else None
  {
    ValueOfDec(n);
  }

  lemma DecInjective(m: nat, n: nat)
    ensures Dec(m) == Dec(n) <==> m == n
  {
    ValueOfDec(m);
    ValueOfDec(n);
  }

  lemma {:induction false} ValueHead(s: string)
    requires Value(s).Some?
    ensures s != [] && IsDigit(s[0])
    ensures s[0] != '0' ==> Value(s).value > 0
  {
    if |s| > 1 {
      ValueHead(s[..|s| - 1]);
    }
  }

  /** A string that parses was printed by `Dec` exactly when it has no leading zero. */
  lemma {:induction false} DecOfParse(s: string)
    requires Value(s).Some?
    ensures Dec(Value(s).value) == s <==> |s| == 1 || s[0] != '0'
  {
    if |s| > 1 {
      var t := s[..|s| - 1];
      var n := Value(t).value;
      ValueHead(t);
      DecOfParse(t);
      assert s == t + [s[|s| - 1]];
      if s[0] != '0' {
        assert Dec(10 * n + (s[|s| - 1] as int - '0' as int)) == Dec(n) + [s[|s| - 1]];
      } else {
        if n > 0 {
          assert |t| > 1;
          assert Dec(10 * n + (s[|s| - 1] as int - '0' as int)) == Dec(n) + [s[|s| - 1]];
          assert Dec(n) != t;
        }
      }
    }
  }

  // Names of directories.

  /** How a listing reads a directory name: not one of ours, unreadable, or an id. */
  datatype Parsed = Ignored | Bad | Num(id: u16)

  predicate HasPrefix(s: string, prefix: string) {
    |prefix| <= |s| && s[..|prefix|] == prefix
  }

  function ParseNumbered(prefix: string, s: string): Parsed {
    if !HasPrefix(s, prefix) then Ignored
    else
      match ParseUint(s[|prefix|..], U16_LIMIT)
      case None => Bad
      case Some(n) => Num(n)
  }

  lemma NumberedRoundTrip(prefix: string, id: u16)
    ensures ParseNumbered(prefix, prefix + Dec(id)) == Num(id)
  {
    var s := prefix + Dec(id);
    assert s[..|prefix|] == prefix && s[|prefix|..] == Dec(id);
    ParseOfDec(id, U16_LIMIT);
  }

  const TPG_PREFIX := "tpgt_"
  const LUN_PREFIX := "lun_"

  function ParseTpg(s: string): Parsed {
    ParseNumbered(TPG_PREFIX, s)
  }

  function ParseLun(s: string): Parsed {
    ParseNumbered(LUN_PREFIX, s)
  }

  /** The directory of a target portal group; the listing reads the id back from it. */
  function TpgName(id: u16): (s: string)
    ensures ParseTpg(s) == Num(id)
  {
    NumberedRoundTrip(TPG_PREFIX, id);
    TPG_PREFIX + Dec(id)
  }

  /** The directory of a LUN; the listing reads the id back from it. */
  function LunName(id: u16): (s: string)
    ensures ParseLun(s) == Num(id)
  {
    NumberedRoundTrip(LUN_PREFIX, id);
    LUN_PREFIX + Dec(id)
  }

  /** The names the server itself writes. */
  predicate CanonTpg(s: string) {
    ParseTpg(s).Num? && s == TpgName(ParseTpg(s).id)
  }

  predicate CanonLun(s: string) {
    ParseLun(s).Num? && s == LunName(ParseLun(s).id)
  }

  /** `strings.Split(s, c)` for a one-character separator. */
  function Split(s: string, c: char): (parts: seq<string>)
    ensures |parts| > 0
  {
    if s == [] then [[]]
    else
      var rest := Split(s[1..], c);
      if s[0] == c then [[]] + rest else [[s[0]] + rest[0]] + rest[1..]
  }

  lemma {:induction false} SplitPlain(s: string, c: char)
    requires c !in s
    ensures Split(s, c) == [s]
  {
    if s != [] {
      SplitPlain(s[1..], c);
      assert [s[0]] + s[1..] == s;
    }
  }

  lemma {:induction false} SplitPair(a: string, b: string, c: char)
    requires c !in a && c !in b
    ensures Split(a + [c] + b, c) == [a, b]
  {
    var s := a + [c] + b;
    if a == [] {
      assert s[1..] == b;
      SplitPlain(b, c);
    } else {
      assert s[1..] == a[1..] + [c] + b;
      SplitPair(a[1..], b, c);
      assert [a[0]] + a[1..] == a;
    }
  }

  /** How `ListBackstores` reads the name of a directory under `core`. */
  datatype ParsedHba = NotAnHba | BadHba | Hba(kind: string, id: u16)

  function ParseHba(s: string): ParsedHba {
    if s == "alua" then NotAnHba
    else
      var parts := Split(s, '_');
      if |parts| != 2 then NotAnHba
      else
        match ParseUint(parts[1], U16_LIMIT)
        case None => BadHba
        case Some(n) => Hba(parts[0], n)
  }

  lemma HbaRoundTrip(kind: string, id: u16)
    requires '_' !in kind
    ensures ParseHba(kind + "_" + Dec(id)) == Hba(kind, id)
  {
    var s := kind + "_" + Dec(id);
    assert s[|kind|] == '_';
    assert s != "alua";
    SplitPair(kind, Dec(id), '_');
    ParseOfDec(id, U16_LIMIT);
  }

  /** The directory of a backstore; the listing reads type and id back from it. */
  function HbaName(kind: string, id: u16): (s: string)
    ensures '_' !in kind ==> ParseHba(s) == Hba(kind, id)
  {
    if '_' !in kind then HbaRoundTrip(kind, id); kind + "_" + Dec(id)
    else kind + "_" + Dec(id)
  }

  predicate CanonHba(s: string) {
    ParseHba(s).Hba? && s == HbaName(ParseHba(s).kind, ParseHba(s).id)
  }

  // Qualified target names.

  function Iqn(base: string, name: string): (s: string)
    ensures s != "" && Ours(base, s) && PoolNameOf(base, s) == name
  {
    var s := base + ":" + name;
    assert s[..|base| + 1] == base + ":";
    assert s[|base| + 1..] == name;
    s
  }

  /** The target name starts with this server's base name and a colon. */
  predicate Ours(base: string, iqn: string) {
    HasPrefix(iqn, base + ":")
  }

  function PoolNameOf(base: string, iqn: string): string
    requires Ours(base, iqn)
  {
    iqn[|base| + 1..]
  }

  /** Stripping the base name from one of our target names and adding it again changes nothing. */
  lemma IqnRoundTrip(base: string, iqn: string)
    requires Ours(base, iqn)
    ensures Iqn(base, PoolNameOf(base, iqn)) == iqn
  {
    assert iqn == iqn[..|base| + 1] + iqn[|base| + 1..];
  }

  /** The disk file of a volume. */
  function ImagePath(dir: string, pool: string, volume: string): (path: string)
    ensures path != ""
  {
    dir + "/" + pool + "-" + volume + ".img"
  }
}
