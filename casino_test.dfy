/** The pure helpers of the casino test suite: the symbol-code encoder `get_token_pk`, which
    packs an upper-case token name into a 64-bit table key the way eosio's `symbol_code`
    does, and three linear lookups in the key/value lists the contracts' tables
    serialise their maps to. */
module CasinoTest {
  import opened Types

  datatype Error =
    | NotUppercase    // std::logic_error "only uppercase letters allowed in symbol_code string"
    | SymbolNotFound  // std::runtime_error "symbol not found"

  predicate IsUpper(c: char) {
    'A' <= c <= 'Z'
  }

  predicate AllUpper(s: string) {
    forall i :: 0 <= i < |s| ==> IsUpper(s[i])
  }

  function Pow256(n: nat): (p: nat)
    ensures p > 0
  {
    if n == 0 then 1 else 256 * Pow256(n - 1)
  }

  /** The characters of `s` as the bytes of an unbounded number, the first character
      being the lowest byte. */
  function Pack(s: string): nat {
    if s == [] then 0 else s[0] as int + 256 * Pack(s[1..])
  }

  /** `v >> 8k`. */
  function ShiftRight(v: nat, k: nat): nat {
    if k == 0 then v else ShiftRight(v / 256, k - 1)
  }

  /** The value `get_token_pk` returns or the error it throws: every character must be an
      upper-case letter, and the packed bytes are kept to 64 bits. */
  function SymbolCode(s: string): (r: Result<u64, Error>)
    ensures r.Failure? <==> exists i :: 0 <= i < |s| && !IsUpper(s[i])
    ensures r.Failure? ==> r.error == NotUppercase
    ensures r.Success? ==> r.value as int == Pack(s) % U64_MODULUS
  {
    if AllUpper(s) then Success((Pack(s) % U64_MODULUS) as u64) else Failure(NotUppercase)
  }

  /** Shifting a 64-bit value left by one byte (dropping its top byte) and OR-ing a byte in
      is the 64-bit truncation of "times 256 plus the byte". */
  lemma ShiftInByte(p: nat, c: int)
    requires 0 <= c < 256
    ensures ((p % U64_MODULUS) * 256) % U64_MODULUS + c == (c + 256 * p) % U64_MODULUS
  {
    var m := U64_MODULUS;
    var half := 0x100_0000_0000_0000;  // m / 256
    var v := p % m;
    var q := p / m;
    assert p == m * q + v;
    var a := v / half;
    var t := 256 * (v % half);
    assert v * 256 == m * a + t;
    assert 0 <= t <= m - 256;
    assert (v * 256) % m == t;
    assert c + 256 * p == m * (256 * q + a) + (t + c);
    assert (c + 256 * p) % m == t + c;
  }

  /** `get_token_pk`: walks the name from its last character to its first, shifting the
      64-bit accumulator left by a byte and OR-ing in each character, and throws on the
      first character (from the end) that is not an upper-case letter. */
  method GetTokenPk(tokenName: string) returns (r: Result<u64, Error>)
    ensures r == SymbolCode(tokenName)
  {
    var value: int := 0;
    var i := |tokenName|;
    while i > 0
      invariant 0 <= i <= |tokenName|
      invariant AllUpper(tokenName[i..])
      invariant value == Pack(tokenName[i..]) % U64_MODULUS
    {
      i := i - 1;
      var c := tokenName[i];
      if c < 'A' || c > 'Z' {
        return Failure(NotUppercase);
      }
      assert tokenName[i..][1..] == tokenName[i + 1..];
      ShiftInByte(Pack(tokenName[i + 1..]), c as int);
      // after `value <<= 8` the low byte is zero, so `value |= c` adds c
      value := (value * 256) % U64_MODULUS + c as int;
    }
    return Success(value as u64);
  }

  /** The empty name encodes to 0. */
  lemma EmptyNameIsZero()
    ensures SymbolCode("") == Success(0)
  {
  }

  /** A name of upper-case letters packs to fewer bytes than it has characters. */
  lemma {:induction false} PackBound(s: string)
    requires AllUpper(s)
    ensures Pack(s) < Pow256(|s|)
  {
    if s != [] {
      PackBound(s[1..]);
    }
  }

  lemma {:induction false} Pow256Monotone(a: nat, b: nat)
    requires a <= b
    ensures Pow256(a) <= Pow256(b)
    decreases b
  {
    if a < b {
      Pow256Monotone(a, b - 1);
    }
  }

  lemma Pow256Eight()
    ensures Pow256(8) == U64_MODULUS
  {
  }

  /** A name of at most eight upper-case letters fits in 64 bits: the code is its packing. */
  lemma ShortNameFits(s: string)
    requires AllUpper(s) && |s| <= 8
    ensures SymbolCode(s).Success? && SymbolCode(s).value as int == Pack(s)
  {
    PackBound(s);
    Pow256Monotone(|s|, 8);
    Pow256Eight();
  }

  /** Character i of the name is byte i of its packing (bits 8i..8i+7). */
  lemma {:induction false} PackByte(s: string, i: nat)
    requires AllUpper(s) && i < |s|
    ensures ShiftRight(Pack(s), i) % 256 == s[i] as int
  {
    if i > 0 {
      assert Pack(s) / 256 == Pack(s[1..]);
      PackByte(s[1..], i - 1);
    }
  }

  /** For names of at most eight characters, character i sits in bits 8i..8i+7 of the code,
      the first character in the lowest byte. */
  lemma SymbolCodeByte(s: string, i: nat)
    requires AllUpper(s) && |s| <= 8 && i < |s|
    ensures SymbolCode(s).Success?
    ensures ShiftRight(SymbolCode(s).value as nat, i) % 256 == s[i] as int
  {
    ShortNameFits(s);
    PackByte(s, i);
  }

  /** Reads a name back: bytes from the low end until a zero byte. */
  function Decode(v: nat): string
    decreases v
  {
    if v % 256 == 0 then [] else [(v % 256) as char] + Decode(v / 256)
  }

  lemma {:induction false} DecodePack(s: string)
    requires AllUpper(s)
    ensures Decode(Pack(s)) == s
  {
    if s != [] {
      assert Pack(s) % 256 == s[0] as int && Pack(s) / 256 == Pack(s[1..]);
      DecodePack(s[1..]);
    }
  }

  /** Round trip: a name of at most eight upper-case letters is recovered from its code. */
  lemma SymbolCodeRoundTrip(s: string)
    requires AllUpper(s) && |s| <= 8
    ensures SymbolCode(s).Success? && Decode(SymbolCode(s).value as nat) == s
  {
    ShortNameFits(s);
    DecodePack(s);
  }

  /** Hence two such names with the same code are the same name. */
  lemma SymbolCodeInjective(s: string, t: string)
    requires AllUpper(s) && |s| <= 8 && AllUpper(t) && |t| <= 8
    requires SymbolCode(s) == SymbolCode(t)
    ensures s == t
  {
    SymbolCodeRoundTrip(s);
    SymbolCodeRoundTrip(t);
  }

  lemma Distribute(c: int, x: int, p: int, y: int)
    ensures c + 256 * (x + p * y) == (c + 256 * x) + (256 * p) * y
  {
  }

  lemma {:induction false} PackConcat(a: string, b: string)
    ensures Pack(a + b) == Pack(a) + Pow256(|a|) * Pack(b)
  {
    if a == [] {
      assert a + b == b;
    } else {
      assert (a + b)[0] == a[0] && (a + b)[1..] == a[1..] + b;
      PackConcat(a[1..], b);
      Distribute(a[0] as int, Pack(a[1..]), Pow256(|a| - 1), Pack(b));
    }
  }

  /** Only the first eight characters of a longer name reach the code: the 64-bit
      accumulator drops the bytes shifted out at the top, so such names are not
      told apart. */
  lemma LongNameTruncated(s: string)
    requires AllUpper(s) && |s| >= 8
    ensures SymbolCode(s) == SymbolCode(s[..8])
  {
    assert s == s[..8] + s[8..];
    PackConcat(s[..8], s[8..]);
    Pow256Eight();
    var x := Pack(s[..8]);
    var y := Pack(s[8..]);
    assert Pack(s) == x + U64_MODULUS * y;
    assert (x + U64_MODULUS * y) % U64_MODULUS == x % U64_MODULUS;
  }

  /** One element of a map serialised as a list of `{key, value}` objects. */
  datatype Entry<V> = Entry(key: u64, value: V)

  ghost predicate NoMatch<V>(entries: seq<Entry<V>>, key: u64) {
    forall i :: 0 <= i < |entries| ==> entries[i].key != key
  }

  ghost predicate IsFirstMatch<V>(entries: seq<Entry<V>>, key: u64, i: int) {
    0 <= i < |entries| && entries[i].key == key && forall j :: 0 <= j < i ==> entries[j].key != key
  }

  ghost predicate IsLastMatch<V>(entries: seq<Entry<V>>, key: u64, i: int) {
    0 <= i < |entries| && entries[i].key == key && forall j :: i < j < |entries| ==> entries[j].key != key
  }

  /** A list in which the key occurs has a first and a last occurrence, so the contracts
      below determine the lookups' results. */
  lemma {:induction false} MatchesExist<V>(entries: seq<Entry<V>>, key: u64)
    requires !NoMatch(entries, key)
    ensures exists i :: IsFirstMatch(entries, key, i)
    ensures exists i :: IsLastMatch(entries, key, i)
  {
    var n := |entries| - 1;
    if entries[n].key == key {
      assert IsLastMatch(entries, key, n);
    } else {
      MatchesExist(entries[..n], key);
      var i :| IsLastMatch(entries[..n], key, i);
      assert IsLastMatch(entries, key, i);
    }
    var k :| 0 <= k < |entries| && entries[k].key == key;
    if k > 0 && !NoMatch(entries[..k], key) {
      MatchesExist(entries[..k], key);
      var i :| IsFirstMatch(entries[..k], key, i);
      assert IsFirstMatch(entries, key, i);
    } else {
      assert IsFirstMatch(entries, key, k);
    }
  }

  /** An asset: an amount of a symbol. */
  datatype Asset = Asset(amount: int, symbol: u64)

  /** `get_asset_from_map`: the value of the last entry whose key is the symbol, or zero. */
  method AssetFromMap(entries: seq<Entry<int>>, symbol: u64) returns (a: Asset)
    ensures a.symbol == symbol
    ensures NoMatch(entries, symbol) ==> a.amount == 0
    ensures forall i :: IsLastMatch(entries, symbol, i) ==> a.amount == entries[i].value
  {
    var amount := 0;
    for k := 0 to |entries|
      invariant NoMatch(entries[..k], symbol) ==> amount == 0
      invariant forall i :: IsLastMatch(entries[..k], symbol, i) ==> amount == entries[i].value
    {
      if entries[k].key == symbol {
        amount := entries[k].value;
        assert IsLastMatch(entries[..k + 1], symbol, k);
      } else {
        assert forall i :: IsLastMatch(entries[..k + 1], symbol, i) ==> IsLastMatch(entries[..k], symbol, i);
      }
    }
    assert entries[..|entries|] == entries;
    return Asset(amount, symbol);
  }

  /** A time point, in microseconds. */
  type TimePoint = int

  /** `get_time_from_map`: the value of the first entry whose key is the symbol; throws
      when there is none. */
  method TimeFromMap(entries: seq<Entry<TimePoint>>, symbol: u64) returns (r: Result<TimePoint, Error>)
    ensures NoMatch(entries, symbol) <==> r == Failure(SymbolNotFound)
    ensures forall i :: IsFirstMatch(entries, symbol, i) ==> r == Success(entries[i].value)
  {
    for k := 0 to |entries|
      invariant NoMatch(entries[..k], symbol)
    {
      if entries[k].key == symbol {
        assert IsFirstMatch(entries, symbol, k);
        return Success(entries[k].value);
      }
    }
    assert entries[..|entries|] == entries;
    return Failure(SymbolNotFound);
  }

  /** `game_params_type` as the tests read it. */
  type TestGameParams = seq<(u16, u64)>

  /** The token `get_game_params` reads when none is given. */
  const DEFAULT_TOKEN: string := "BET"

  /** `get_game_params`: `row` is the game's `gameparams` row, if any, as a list from token
      codes to parameter lists. With no row the result is empty and the token is not even
      encoded; otherwise the token must encode, and the result is a copy of the first list
      filed under its code, or empty when there is none. */
  method GetGameParams(row: Option<seq<Entry<TestGameParams>>>, token: string)
    returns (r: Result<TestGameParams, Error>)
    ensures row.None? ==> r == Success([])
    ensures row.Some? && SymbolCode(token).Failure? ==> r == Failure(NotUppercase)
    ensures row.Some? && SymbolCode(token).Success? && NoMatch(row.value, SymbolCode(token).value) ==>
              r == Success([])
    ensures row.Some? && SymbolCode(token).Success? ==>
              forall i :: IsFirstMatch(row.value, SymbolCode(token).value, i) ==> r == Success(row.value[i].value)
  {
    var params: TestGameParams := [];
    if row.None? {
      return Success(params);
    }
    var tokenRaw := GetTokenPk(token);
    if tokenRaw.Failure? {
      return Failure(tokenRaw.error);
    }
    var entries := row.value;
    for k := 0 to |entries|
      invariant NoMatch(entries[..k], tokenRaw.value)
    {
      if entries[k].key == tokenRaw.value {
        var pairs := entries[k].value;
        for j := 0 to |pairs|
          invariant params == pairs[..j]
        {
          params := params + [pairs[j]];
        }
        assert pairs[..|pairs|] == pairs;
        assert IsFirstMatch(entries, tokenRaw.value, k);
        return Success(params);
      }
    }
    assert entries[..|entries|] == entries;
    return Success(params);
  }

  /** `get_game_params` called without a token reads the "BET" parameters, and never
      throws, since "BET" is a valid name. */
  method GetGameParamsDefault(row: Option<seq<Entry<TestGameParams>>>)
    returns (r: Result<TestGameParams, Error>)
    ensures r.Success?
    ensures row.None? || NoMatch(row.value, SymbolCode(DEFAULT_TOKEN).value) ==> r == Success([])
    ensures row.Some? ==>
              forall i :: IsFirstMatch(row.value, SymbolCode(DEFAULT_TOKEN).value, i) ==> r == Success(row.value[i].value)
  {
    assert AllUpper(DEFAULT_TOKEN);
    r := GetGameParams(row, DEFAULT_TOKEN);
    if row.Some? && !NoMatch(row.value, SymbolCode(DEFAULT_TOKEN).value) {
      MatchesExist(row.value, SymbolCode(DEFAULT_TOKEN).value);
    }
  }
}
