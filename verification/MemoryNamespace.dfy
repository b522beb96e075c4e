/** Escaping of an identity into a store namespace component, over UTF-16 code units. */
module MemoryNamespace {
  import opened Common

  predicate Permitted(c: char) {
    'A' <= c <= 'Z' || 'a' <= c <= 'z' || '0' <= c <= '9' || c in {'-', '_', '.', '@', '+', ':'}
  }

  function Hex(n: nat): string {
    if n < 16 then [HexDigit(n)] else Hex(n / 16) + [HexDigit(n % 16)]
  }

  /** A permitted unit stands for itself; any other becomes its hexadecimal value between tildes. */
  function EscapeUnit(u: CodeUnit): string {
    if u < 0x80 && Permitted(u as char) then [u as char] else ['~'] + Hex(u) + ['~']
  }

  function ToNamespaceComponent(identity: seq<CodeUnit>): string {
    if identity == [] then [] else EscapeUnit(identity[0]) + ToNamespaceComponent(identity[1..])
  }

  /** `["memories", <user>]`, or a refusal when there is no authenticated user. */
  function MemoryNamespaceFor(userId: Option<seq<CodeUnit>>): Result<seq<string>, string> {
    if userId.None? || userId.value == [] then Err("Durable memory needs an authenticated user")
    else Ok(["memories", ToNamespaceComponent(userId.value)])
  }

  // ----- a decoder --------------------------------------------------------------------------

  function HexValue(c: char): Option<nat> {
    if '0' <= c <= '9' then Some(c as int - '0' as int)
    else if 'a' <= c <= 'f' then Some(c as int - 'a' as int + 10)
    else None
  }

  function ParseHex(s: string): Option<nat> {
    if s == [] then Some(0)
    else
      var high, low := ParseHex(s[..|s| - 1]), HexValue(s[|s| - 1]);
      if high.None? || low.None? then None else Some(high.value * 16 + low.value)
  }

  function UntilTilde(s: string): nat {
    if s == [] || s[0] == '~' then 0 else 1 + UntilTilde(s[1..])
  }

  lemma {:induction false} UntilTildeBound(s: string)
    ensures UntilTilde(s) <= |s|
  {
    if s != [] {
      UntilTildeBound(s[1..]);
    }
  }

  /** Reads a component back, or rejects it. */
  function Decode(s: string): Option<seq<CodeUnit>>
    decreases |s|
  {
    if s == [] then Some([])
    else if s[0] != '~' then
      var rest := Decode(s[1..]);
      if rest.None? || s[0] as int >= 0x10000 then None else Some([s[0] as int] + rest.value)
    else
      UntilTildeBound(s[1..]);
      var end := 1 + UntilTilde(s[1..]);
      if end >= |s| then None
      else
        var value, rest := ParseHex(s[1..end]), Decode(s[end + 1..]);
        if value.None? || value.value >= 0x10000 || rest.None? then None else Some([value.value] + rest.value)
  }

  lemma {:induction false} HexRoundTrip(n: nat)
    ensures ParseHex(Hex(n)) == Some(n)
    ensures forall i :: 0 <= i < |Hex(n)| ==> Hex(n)[i] != '~' && Permitted(Hex(n)[i])
  {
    if n < 16 {
      assert Hex(n)[..0] == [];
    } else {
      HexRoundTrip(n / 16);
      assert Hex(n)[..|Hex(n)| - 1] == Hex(n / 16);
    }
  }

  lemma {:induction false} TildeAfter(digits: string, rest: string)
    requires forall i :: 0 <= i < |digits| ==> digits[i] != '~'
    ensures UntilTilde(digits + ['~'] + rest) == |digits|
  {
    var s := digits + ['~'] + rest;
    if digits != [] {
      assert s[1..] == digits[1..] + ['~'] + rest;
      TildeAfter(digits[1..], rest);
    }
  }

  lemma EscapedRoundTrip(u: CodeUnit, digits: string, rest: string)
    requires ParseHex(digits) == Some(u) && forall i :: 0 <= i < |digits| ==> digits[i] != '~'
    requires Decode(rest).Some?
    ensures Decode(['~'] + (digits + ['~'] + rest)) == Some([u] + Decode(rest).value)
  {
    var s := ['~'] + (digits + ['~'] + rest);
    TildeAfter(digits, rest);
    assert s[1..] == digits + ['~'] + rest;
    assert s[1..1 + |digits|] == digits;
    assert s[1 + |digits| + 1..] == rest;
  }

  lemma UnitRoundTrip(u: CodeUnit, rest: string)
    requires Decode(rest).Some?
    ensures Decode(EscapeUnit(u) + rest) == Some([u] + Decode(rest).value)
  {
    if u < 0x80 && Permitted(u as char) {
      assert ([u as char] + rest)[1..] == rest;
    } else {
      HexRoundTrip(u);
      EscapedRoundTrip(u, Hex(u), rest);
      assert EscapeUnit(u) + rest == ['~'] + (Hex(u) + ['~'] + rest);
    }
  }

  /** The decoder recovers every identity. */
  lemma {:induction false} ComponentRoundTrip(identity: seq<CodeUnit>)
    ensures Decode(ToNamespaceComponent(identity)) == Some(identity)
  {
    if identity != [] {
      ComponentRoundTrip(identity[1..]);
      UnitRoundTrip(identity[0], ToNamespaceComponent(identity[1..]));
      assert [identity[0]] + identity[1..] == identity;
    }
  }

  /** A component uses only the alphabet the store accepts, and is empty only for the empty identity. */
  lemma {:induction false} ComponentAlphabet(identity: seq<CodeUnit>)
    ensures var s := ToNamespaceComponent(identity);
            && (forall i :: 0 <= i < |s| ==> Permitted(s[i]) || s[i] == '~')
            && (s == [] <==> identity == [])
  {
    if identity != [] {
      ComponentAlphabet(identity[1..]);
      HexRoundTrip(identity[0]);
    }
  }

  /** An identity that needs no escaping is its own component; a unit that does becomes its number between tildes. */
  lemma {:induction false} OnlyOthersAreEscaped(identity: seq<CodeUnit>)
    ensures (forall i :: 0 <= i < |identity| ==> identity[i] < 0x80 && Permitted(identity[i] as char)) ==>
              |ToNamespaceComponent(identity)| == |identity|
              && forall i :: 0 <= i < |identity| ==> ToNamespaceComponent(identity)[i] == identity[i] as char
    ensures |identity| == 1 && !(identity[0] < 0x80 && Permitted(identity[0] as char)) ==>
              var s := ToNamespaceComponent(identity);
              |s| > 2 && s[0] == s[|s| - 1] == '~' && ParseHex(s[1..|s| - 1]) == Some(identity[0])
  {
    if identity != [] {
      OnlyOthersAreEscaped(identity[1..]);
      HexRoundTrip(identity[0]);
      var s := ToNamespaceComponent(identity);
      if |identity| == 1 && !(identity[0] < 0x80 && Permitted(identity[0] as char)) {
        assert s == ['~'] + Hex(identity[0]) + ['~'];
        assert s[1..|s| - 1] == Hex(identity[0]);
      }
    }
  }

  /** Anyone with an identity gets a namespace, nobody else does, and two users never share one. */
  lemma NamespacesAreDistinct(a: Option<seq<CodeUnit>>, b: Option<seq<CodeUnit>>)
    ensures MemoryNamespaceFor(a).Ok? <==> a.Some? && a.value != []
    ensures MemoryNamespaceFor(a).Ok? ==>
              |MemoryNamespaceFor(a).value| == 2 && MemoryNamespaceFor(a).value[0] == "memories"
              && Decode(MemoryNamespaceFor(a).value[1]) == a
    ensures MemoryNamespaceFor(a).Ok? && MemoryNamespaceFor(a) == MemoryNamespaceFor(b) ==> a == b
  {
    if MemoryNamespaceFor(a).Ok? {
      ComponentRoundTrip(a.value);
    }
    if MemoryNamespaceFor(a).Ok? && MemoryNamespaceFor(a) == MemoryNamespaceFor(b) {
      assert MemoryNamespaceFor(a).value[1] == MemoryNamespaceFor(b).value[1];
      ComponentRoundTrip(a.value);
      ComponentRoundTrip(b.value);
    }
  }
}
