/** hdwrap/key.go, first half: the KeyType enumeration, its string table and
    the name lookup used by `EmptyKeyStr`. */
module KeyTypes {

  /** Go's `KeyType int`: the supported HD wallet key formats. */
  newtype KeyType = int

  // The constants follow `iota`.
  const Bad: KeyType := 0
  const Btc: KeyType := 1
  const Zec: KeyType := 2
  const Eth: KeyType := 3
  const Dcr: KeyType := 4

  /** `keyTypeMap`: the name of each supported key type. */
  const KeyTypeMap: map<string, KeyType> := map["btc" := Btc, "zec" := Zec, "eth" := Eth, "dcr" := Dcr]

  /** A key type the package implements: one the table names. */
  predicate Supported(t: KeyType) {
    t in KeyTypeMap.Values
  }

  /** The five constants are distinct, exactly the four real types are named
      by the table, and `Bad` is not among them. */
  lemma KeyTypeTable()
    ensures |{Bad, Btc, Zec, Eth, Dcr}| == 5
    ensures KeyTypeMap.Values == {Btc, Zec, Eth, Dcr}
    ensures !Supported(Bad)
  {
    forall v | v in KeyTypeMap.Values
      ensures v in {Btc, Zec, Eth, Dcr}
    {
      var k :| k in KeyTypeMap && KeyTypeMap[k] == v;
      assert k in {"btc", "zec", "eth", "dcr"};
    }
    assert KeyTypeMap["btc"] == Btc && KeyTypeMap["zec"] == Zec;
    assert KeyTypeMap["eth"] == Eth && KeyTypeMap["dcr"] == Dcr;
  }

  /** No two names share a key type, so the name `String` finds is the only one. */
  lemma KeyTypeMapInjective(a: string, b: string)
    requires a in KeyTypeMap && b in KeyTypeMap && KeyTypeMap[a] == KeyTypeMap[b]
    ensures a == b
  {
  }

  /** `KeyType.String`: scans the table (in Go's unspecified map order) for the
      entry whose value is `t` and returns its name. Go panics with "bad key
      type" when there is none, which the precondition excludes. */
  method String(t: KeyType) returns (name: string)
    requires Supported(t)
    ensures name in KeyTypeMap && KeyTypeMap[name] == t
  {
    var remaining := KeyTypeMap.Keys;
    while remaining != {}
      invariant remaining <= KeyTypeMap.Keys
      invariant forall k :: k in KeyTypeMap && k !in remaining ==> KeyTypeMap[k] != t
      decreases remaining
    {
      var k :| k in remaining;
      if KeyTypeMap[k] == t {
        return k;
      }
      remaining := remaining - {k};
    }
    assert false;
  }

  /** `unicode.ToLower` on the ASCII letters; every other character is kept. */
  function LowerChar(c: char): char {
    if 'A' <= c <= 'Z' then (c as int + 32) as char else c
  }

  /** `strings.ToLower` */
  function ToLower(s: string): (r: string)
    ensures |r| == |s|
    ensures forall i :: 0 <= i < |s| ==> r[i] == LowerChar(s[i])
  {
    seq(|s|, i requires 0 <= i < |s| => LowerChar(s[i]))
  }

  /** `keyTypeMap[strings.ToLower(t)]`: a name missing from the table gives
      the map's zero value, `Bad`. */
  function Lookup(s: string): (t: KeyType)
    ensures Supported(t) <==> ToLower(s) in KeyTypeMap
    ensures Supported(t) ==> KeyTypeMap[ToLower(s)] == t
    ensures !Supported(t) ==> t == Bad
  {
    var lower := ToLower(s);
    if lower in KeyTypeMap then KeyTypeMap[lower] else Bad
  }

  /** The lookup ignores case: any spelling of a table name, whatever the case
      of its letters, finds that name's key type. */
  lemma LookupIgnoresCase(name: string, s: string)
    requires name in KeyTypeMap
    requires |s| == |name| && forall i :: 0 <= i < |s| ==> LowerChar(s[i]) == name[i]
    ensures Lookup(s) == KeyTypeMap[name]
  {
    assert ToLower(s) == name;
  }

  /** Round trip through the table: the name of a supported type looks up to
      that type. */
  lemma NameLookupRoundTrip(t: KeyType, name: string)
    requires name in KeyTypeMap && KeyTypeMap[name] == t
    ensures Lookup(name) == t
  {
    forall i | 0 <= i < |name|
      ensures LowerChar(name[i]) == name[i]
    {
      assert name == "btc" || name == "zec" || name == "eth" || name == "dcr";
    }
    LookupIgnoresCase(name, name);
  }
}
