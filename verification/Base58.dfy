/** Addresses in base 58: the encoding of byte strings, its inverse, and the check of an address. */
module Base58 {
  import opened Amounts

  type Byte = x: int | 0 <= x < 256

  /** Digits and letters in ascending order, without 0, I, O and l. */
  const ALPHABET: string := "123456789" + "ABCDEFGH" + "JKLMN" + "PQRSTUVWXYZ" + "abcdefghijk" + "mnopqrstuvwxyz"

  const ADDRESS_LENGTH := 64
  const ADDRESS_STRING_LENGTH := 34
  const CHECKSUM_LENGTH := 4
  const VERSION: Byte := 0

  // ---------------------------------------------------------------- numerals

  /** The digits of a number, most significant first and without leading zeros. */
  function Numeral(n: nat, base: nat): seq<nat>
    requires base > 1
  {
    if n == 0 then []
    else
      Divided(n, base);
      Numeral(n / base, base) + [n % base]
  }

  lemma Divided(n: nat, base: nat)
    requires base > 1
    ensures n == (n / base) * base + n % base && n % base < base
    ensures n > 0 ==> n / base < n
  {
    if n / base >= n > 0 {
      Times(2, base, n / base);
    }
  }

  lemma Times(a: nat, b: nat, c: nat)
    requires a <= b
    ensures a * c <= b * c && c * a <= c * b
  {}

  function Value(digits: seq<nat>, base: nat): nat {
    if digits == [] then 0 else Value(digits[..|digits| - 1], base) * base + digits[|digits| - 1]
  }

  ghost predicate Digits(digits: seq<nat>, base: nat) {
    forall i :: 0 <= i < |digits| ==> digits[i] < base
  }

  function Pow(base: nat, k: nat): nat {
    if k == 0 then 1 else Pow(base, k - 1) * base
  }

  lemma Division(q: nat, r: nat, base: nat)
    requires r < base
    ensures (q * base + r) / base == q && (q * base + r) % base == r
  {
    var n := q * base + r;
    if n / base < q {
      Times(n / base + 1, q, base);
    } else if n / base > q {
      Times(q + 1, n / base, base);
    }
  }

  lemma {:induction false} NumeralValue(n: nat, base: nat)
    requires base > 1
    ensures Value(Numeral(n, base), base) == n
    ensures Digits(Numeral(n, base), base)
    ensures n > 0 ==> Numeral(n, base) != [] && Numeral(n, base)[0] != 0
  {
    if n > 0 {
      Divided(n, base);
      NumeralValue(n / base, base);
      assert Numeral(n, base)[..|Numeral(n, base)| - 1] == Numeral(n / base, base);
    }
  }

  lemma {:induction false} ValuePositive(digits: seq<nat>, base: nat)
    requires base > 1 && digits != [] && digits[0] != 0
    ensures Value(digits, base) > 0
  {
    if |digits| > 1 {
      ValuePositive(digits[..|digits| - 1], base);
    }
  }

  /** Only numerals without leading zeros are recovered from their value. */
  lemma {:induction false} ValueNumeral(digits: seq<nat>, base: nat)
    requires base > 1 && Digits(digits, base) && (digits != [] ==> digits[0] != 0)
    ensures Numeral(Value(digits, base), base) == digits
  {
    if digits != [] {
      var n := |digits| - 1;
      var init, last := digits[..n], digits[n];
      ValueNumeral(init, base);
      ValuePositive(digits, base);
      Division(Value(init, base), last, base);
      assert digits == init + [last];
    }
  }

  /** A leading zero does not count. */
  lemma {:induction false} LeadingZero(digits: seq<nat>, base: nat)
    requires digits != [] && digits[0] == 0
    ensures Value(digits, base) == Value(digits[1..], base)
  {
    var n := |digits| - 1;
    if n == 0 {
      assert digits[..0] == [] && digits[1..] == [];
    } else {
      LeadingZero(digits[..n], base);
      assert digits[..n][1..] == digits[1..][..n - 1];
    }
  }

  lemma {:induction false} ValueBound(digits: seq<nat>, base: nat)
    requires base > 1 && Digits(digits, base)
    ensures Value(digits, base) < Pow(base, |digits|)
  {
    if digits != [] {
      var n := |digits| - 1;
      ValueBound(digits[..n], base);
      Times(Value(digits[..n], base) + 1, Pow(base, n), base);
    }
  }

  lemma {:induction false} NumeralLength(n: nat, base: nat, k: nat)
    requires base > 1 && n < Pow(base, k)
    ensures |Numeral(n, base)| <= k
  {
    if n > 0 {
      Divided(n, base);
      if n / base >= Pow(base, k - 1) {
        Times(Pow(base, k - 1), n / base, base);
      }
      NumeralLength(n / base, base, k - 1);
    }
  }

  // ---------------------------------------------------------------- symbols

  /** The place of a symbol in the alphabet, or -1. */
  function IndexByte(s: string, c: char): (i: int)
    ensures -1 <= i < |s|
    ensures i >= 0 ==> s[i] == c
    ensures i == -1 ==> c !in s
    decreases |s|
  {
    if s == [] then -1
    else if s[|s| - 1] == c then |s| - 1
    else IndexByte(s[..|s| - 1], c)
  }

  lemma Increasing(i: nat, j: nat)
    requires i < j < |ALPHABET|
    ensures ALPHABET[i] < ALPHABET[j]
    decreases j - i
  {
    NextSymbol(i);
    if i + 1 < j {
      Increasing(i + 1, j);
    }
  }

  lemma NextSymbol(i: nat)
    requires i + 1 < |ALPHABET|
    ensures ALPHABET[i] < ALPHABET[i + 1]
  {}

  lemma IndexOfSymbol(d: nat)
    requires d < |ALPHABET|
    ensures IndexByte(ALPHABET, ALPHABET[d]) == d
  {
    var i := IndexByte(ALPHABET, ALPHABET[d]);
    if i < d {
      Increasing(i, d);
    } else if d < i {
      Increasing(d, i);
    }
  }

  lemma Symbols()
    ensures |ALPHABET| == 58 && ALPHABET[0] == '1'
  {}

  /** Digits but 0, and letters but I, O and l. */
  predicate IsSymbol(c: char) {
    '1' <= c <= '9' || ('A' <= c <= 'Z' && c != 'I' && c != 'O') || ('a' <= c <= 'z' && c != 'l')
  }

  /** What a symbol stands for: digits come first, then upper case, then lower case, each in order. */
  function Rank(c: char): nat
    requires IsSymbol(c)
  {
    if c <= '9' then c as int - '1' as int
    else if c <= 'H' then c as int - 'A' as int + 9
    else if c <= 'N' then c as int - 'J' as int + 17
    else if c <= 'Z' then c as int - 'P' as int + 22
    else if c <= 'k' then c as int - 'a' as int + 33
    else c as int - 'm' as int + 44
  }

  lemma SymbolsInOrder(d: nat)
    ensures d < 9 ==> "123456789"[d] as int == '1' as int + d
    ensures d < 8 ==> "ABCDEFGH"[d] as int == 'A' as int + d
    ensures d < 5 ==> "JKLMN"[d] as int == 'J' as int + d
    ensures d < 11 ==> "PQRSTUVWXYZ"[d] as int == 'P' as int + d
    ensures d < 11 ==> "abcdefghijk"[d] as int == 'a' as int + d
    ensures d < 14 ==> "mnopqrstuvwxyz"[d] as int == 'm' as int + d
  {}

  /** The d-th symbol is the one that stands for d. */
  lemma SymbolOf(d: nat)
    requires d < 58
    ensures |ALPHABET| == 58 && IsSymbol(ALPHABET[d]) && Rank(ALPHABET[d]) == d
  {
    Symbols();
    if d < 9 { SymbolsInOrder(d); }
    else if d < 17 { SymbolsInOrder(d - 9); }
    else if d < 22 { SymbolsInOrder(d - 17); }
    else if d < 33 { SymbolsInOrder(d - 22); }
    else if d < 44 { SymbolsInOrder(d - 33); }
    else { SymbolsInOrder(d - 44); }
  }

  lemma SameRank(c: char, d: char)
    requires IsSymbol(c) && IsSymbol(d) && Rank(c) == Rank(d)
    ensures c == d
  {}

  /** The alphabet: exactly these symbols, each in its place. */
  lemma AlphabetIs(c: char)
    ensures c in ALPHABET <==> ('1' <= c <= '9' || ('A' <= c <= 'Z' && c != 'I' && c != 'O') || ('a' <= c <= 'z' && c != 'l'))
    ensures IndexByte(ALPHABET, c) == if IsSymbol(c) then Rank(c) else -1
  {
    hide Rank;
    Symbols();
    if IsSymbol(c) {
      RankBelow(c);
      SymbolOf(Rank(c));
      SameRank(ALPHABET[Rank(c)], c);
      IndexOfSymbol(Rank(c));
    } else if c in ALPHABET {
      var d: nat :| d < |ALPHABET| && ALPHABET[d] == c;
      SymbolOf(d);
    }
  }

  lemma RankBelow(c: char)
    requires IsSymbol(c)
    ensures Rank(c) < 58
  {}

  // ---------------------------------------------------------------- encoding and decoding

  function SymbolsOf(digits: seq<nat>): string
    requires Digits(digits, 58)
  {
    Symbols();
    seq(|digits|, i requires 0 <= i < |digits| => ALPHABET[digits[i]])
  }

  /** One 1 for a leading zero byte, and then the numeral of the bytes in base 58. */
  function Encoded(input: seq<Byte>): string
    requires input != []
  {
    NumeralValue(Value(input, 256), 58);
    SymbolsOf((if input[0] == 0 then [0] else []) + Numeral(Value(input, 256), 58))
  }

  /** A symbol that is not in the alphabet counts as -1. */
  function SymbolsValue(s: string): int
    decreases |s|
  {
    if s == [] then 0 else SymbolsValue(s[..|s| - 1]) * 58 + IndexByte(ALPHABET, s[|s| - 1])
  }

  function Magnitude(n: int): nat {
    if n < 0 then -n else n
  }

  function Decoded(input: string): seq<Byte>
    requires input != []
  {
    var bytes := Numeral(Magnitude(SymbolsValue(input)), 256);
    NumeralValue(Magnitude(SymbolsValue(input)), 256);
    (if input[0] == '1' then [0] else []) + bytes
  }

  lemma {:induction false} ValueOfSymbols(digits: seq<nat>)
    requires Digits(digits, 58)
    ensures SymbolsValue(SymbolsOf(digits)) == Value(digits, 58)
    decreases |digits|
  {
    if digits != [] {
      var n := |digits| - 1;
      ValueOfSymbols(digits[..n]);
      assert SymbolsOf(digits)[..n] == SymbolsOf(digits[..n]);
      Symbols();
      IndexOfSymbol(digits[n]);
    }
  }

  /** What decoding an encoding gives: the bytes without their leading zeros, and one zero if there were any. */
  lemma DecodedEncoding(input: seq<Byte>)
    requires input != []
    ensures Encoded(input) != []
    ensures Decoded(Encoded(input)) == (if input[0] == 0 then [0] else []) + Numeral(Value(input, 256), 256)
  {
    var n := Value(input, 256);
    var digits := (if input[0] == 0 then [0] else []) + Numeral(n, 58);
    NumeralValue(n, 58);
    Symbols();
    ValueOfSymbols(digits);
    if input[0] == 0 {
      LeadingZero(digits, 58);
      assert digits[1..] == Numeral(n, 58);
    } else {
      ValuePositive(input, 256);
      assert digits == Numeral(n, 58);
      IndexOfSymbol(digits[0]);
      IndexOfSymbol(0);
    }
  }

  /** An encoding is a string of symbols, and stands for the number that the bytes are, digit by digit. */
  lemma EncodedSymbols(input: seq<Byte>)
    requires input != []
    ensures forall i :: 0 <= i < |Encoded(input)| ==>
      var c := Encoded(input)[i];
      '1' <= c <= '9' || ('A' <= c <= 'Z' && c != 'I' && c != 'O') || ('a' <= c <= 'z' && c != 'l')
    ensures Value(Ranks(Encoded(input)), 58) == Value(input, 256)
  {
    var n := Value(input, 256);
    NumeralValue(n, 58);
    var digits := (if input[0] == 0 then [0] else []) + Numeral(n, 58);
    Symbols();
    forall i | 0 <= i < |digits| ensures IsSymbol(SymbolsOf(digits)[i]) && Rank(SymbolsOf(digits)[i]) == digits[i] {
      SymbolOf(digits[i]);
    }
    assert Ranks(Encoded(input)) == digits;
    if input[0] == 0 {
      LeadingZero(digits, 58);
      assert digits[1..] == Numeral(n, 58);
    } else {
      assert digits == Numeral(n, 58);
    }
  }

  function Ranks(s: string): seq<nat> {
    seq(|s|, i requires 0 <= i < |s| => if IsSymbol(s[i]) then Rank(s[i]) else 0)
  }

  lemma {:induction false} ValueOfRanks(s: string)
    requires forall i :: 0 <= i < |s| ==> IsSymbol(s[i])
    ensures SymbolsValue(s) == Value(Ranks(s), 58)
    decreases |s|
  {
    hide Rank;
    if s != [] {
      var n := |s| - 1;
      ValueOfRanks(s[..n]);
      assert Ranks(s)[..n] == Ranks(s[..n]);
      AlphabetIs(s[n]);
    }
  }

  /** A string of symbols is decoded to the number that it stands for. */
  lemma DecodedSymbols(s: string)
    requires s != [] && forall i :: 0 <= i < |s| ==> IsSymbol(s[i])
    ensures Value(Decoded(s), 256) == Value(Ranks(s), 58)
  {
    ValueOfRanks(s);
    var bytes := Numeral(Magnitude(SymbolsValue(s)), 256);
    NumeralValue(Magnitude(SymbolsValue(s)), 256);
    var all: seq<nat> := Decoded(s);
    if s[0] == '1' {
      LeadingZero(all, 256);
      assert all[1..] == bytes;
    } else {
      assert all == bytes;
    }
  }

  /** A symbol outside of the alphabet counts as minus one, and the sign of the result is lost. */
  lemma OutsideSymbol(c: char)
    requires !IsSymbol(c)
    ensures Decoded([c]) == [1]
  {
    AlphabetIs(c);
    assert [c][..0] == [] && SymbolsValue([c]) == -1;
    assert Numeral(1, 256) == [] + [1];
  }

  /** The round trip succeeds exactly for inputs with at most one leading zero byte. */
  lemma RoundTripIff(input: seq<Byte>)
    requires input != []
    ensures Encoded(input) != []
    ensures Decoded(Encoded(input)) == input <==> !(|input| > 1 && input[0] == 0 && input[1] == 0)
  {
    DecodedEncoding(input);
    var bytes := Numeral(Value(input, 256), 256);
    NumeralValue(Value(input, 256), 256);
    if input[0] != 0 {
      ValueNumeral(input, 256);
    } else {
      var rest: seq<Byte> := input[1..];
      LeadingZero(input, 256);
      assert input == [0] + rest;
      assert ([0] + bytes)[1..] == bytes;
      if rest == [] || rest[0] != 0 {
        ValueNumeral(rest, 256);
      }
    }
  }

  // ---------------------------------------------------------------- length of an address

  lemma {:induction false} PowAdd(base: nat, m: nat, n: nat)
    ensures Pow(base, m + n) == Pow(base, m) * Pow(base, n)
  {
    if n > 0 {
      PowAdd(base, m, n - 1);
      Regroup(Pow(base, m), Pow(base, n - 1), base);
    }
  }

  lemma Regroup(a: nat, b: nat, c: nat)
    ensures (a * b) * c == a * (b * c)
  {}

  lemma Powers()
    ensures Pow(256, 24) <= Pow(58, 33)
  {
    assert Pow(58, 1) == 58;
    PowAdd(58, 1, 1);
    PowAdd(58, 2, 2);
    PowAdd(58, 4, 4);
    PowAdd(58, 8, 8);
    PowAdd(58, 16, 16);
    PowAdd(58, 32, 1);
    assert Pow(256, 1) == 256;
    PowAdd(256, 1, 1);
    PowAdd(256, 2, 1);
    PowAdd(256, 3, 3);
    PowAdd(256, 6, 6);
    PowAdd(256, 12, 12);
  }

  /** A payload of 25 bytes with version 0 never needs more than 34 symbols. */
  lemma AddressFits(payload: seq<Byte>)
    requires |payload| == 25 && payload[0] == VERSION
    ensures |Encoded(payload)| <= ADDRESS_STRING_LENGTH
  {
    hide Pow;
    var digits: seq<nat> := payload;
    LeadingZero(digits, 256);
    ValueBound(digits[1..], 256);
    Powers();
    NumeralValue(Value(digits, 256), 58);
    NumeralLength(Value(digits, 256), 58, 33);
  }

  // ---------------------------------------------------------------- addresses

  /** The version, the hash of a public key, and the checksum of both. */
  function Payload(hash: seq<Byte>, checksum: seq<Byte> -> seq<Byte>): seq<Byte> {
    [VERSION] + hash + checksum([VERSION] + hash)
  }

  /** Whether the last bytes of a decoded address are the checksum of the others; nothing if it is too
      short to tell, where the program panics. */
  function Checks(decoded: seq<Byte>, checksum: seq<Byte> -> seq<Byte>): Option<bool> {
    if |decoded| <= CHECKSUM_LENGTH then None
    else
      var n := |decoded| - CHECKSUM_LENGTH;
      Some(decoded[n..] == checksum([decoded[0]] + decoded[1..n]))
  }

  function ValidateAddress(address: string, checksum: seq<Byte> -> seq<Byte>): Option<bool>
    requires address != []
  {
    Checks(Decoded(address), checksum)
  }

  /** The address of a key whose hash does not start with a zero byte is valid, and fits. */
  lemma AddressIsValid(hash: seq<Byte>, checksum: seq<Byte> -> seq<Byte>)
    requires |hash| == 20 && hash[0] != 0 && |checksum([VERSION] + hash)| == CHECKSUM_LENGTH
    ensures Encoded(Payload(hash, checksum)) != [] && |Encoded(Payload(hash, checksum))| <= ADDRESS_STRING_LENGTH
    ensures ValidateAddress(Encoded(Payload(hash, checksum)), checksum) == Some(true)
  {
    hide Encoded, Decoded;
    var payload := Payload(hash, checksum);
    RoundTripIff(payload);
    AddressFits(payload);
    assert payload[21..] == checksum([VERSION] + hash);
    assert [payload[0]] + payload[1..21] == [VERSION] + hash;
  }

  /** What is in the address of such a key: the version 0, the hash and four bytes of checksum. */
  lemma AddressHolds(hash: seq<Byte>, checksum: seq<Byte> -> seq<Byte>)
    requires |hash| == 20 && hash[0] != 0
    ensures Encoded(Payload(hash, checksum)) != []
    ensures Decoded(Encoded(Payload(hash, checksum))) == [0] + hash + checksum([0] + hash)
  {
    hide Encoded, Decoded;
    RoundTripIff(Payload(hash, checksum));
  }

  /** An address is valid exactly if its last four bytes are the checksum of what comes before them. */
  lemma ValidMeans(address: string, body: seq<Byte>, sum: seq<Byte>, checksum: seq<Byte> -> seq<Byte>)
    requires address != [] && Decoded(address) == body + sum && |body| > 0 && |sum| == 4
    ensures ValidateAddress(address, checksum) == Some(sum == checksum(body))
  {
    hide Decoded;
    var decoded := body + sum;
    assert decoded[|decoded| - 4..] == sum && [decoded[0]] + decoded[1..|decoded| - 4] == body;
  }

  /** The address of a key whose hash starts with a zero byte is checked against other bytes than those
      it was made of: at least one byte is missing. */
  lemma ShortenedAddress(hash: seq<Byte>, checksum: seq<Byte> -> seq<Byte>)
    requires |hash| == 20 && hash[0] == 0 && |checksum([VERSION] + hash)| == CHECKSUM_LENGTH
    ensures var payload := Payload(hash, checksum);
      Encoded(payload) != [] && |Decoded(Encoded(payload))| < |payload|
  {
    hide Encoded, Decoded, Pow;
    var payload := Payload(hash, checksum);
    DecodedEncoding(payload);
    var digits: seq<nat> := payload;
    var rest := digits[1..];
    LeadingZero(digits, 256);
    LeadingZero(rest, 256);
    ValueBound(rest[1..], 256);
    NumeralLength(Value(digits, 256), 256, 23);
  }

  /** Leading zeros do not count, and the last digits are kept. */
  lemma {:induction false} LastDigitsKept(digits: seq<nat>, base: nat, k: nat)
    requires base > 1 && Digits(digits, base) && 0 < k <= |digits| && digits[|digits| - k] != 0
    ensures var kept := Numeral(Value(digits, base), base);
      |kept| >= k && kept[|kept| - k..] == digits[|digits| - k..]
    decreases |digits|
  {
    if digits[0] == 0 {
      LeadingZero(digits, base);
      LastDigitsKept(digits[1..], base, k);
    } else {
      ValueNumeral(digits, base);
    }
  }

  /** The address made of a key hash is valid, whatever the checksum function. */
  ghost predicate AlwaysValid(hash: seq<Byte>) {
    forall checksum: seq<Byte> -> seq<Byte> :: |checksum([VERSION] + hash)| == CHECKSUM_LENGTH ==>
      && Encoded(Payload(hash, checksum)) != []
      && ValidateAddress(Encoded(Payload(hash, checksum)), checksum) == Some(true)
  }

  /** A checksum function that tells this hash from all other inputs. */
  function Telling(hash: seq<Byte>): seq<Byte> -> seq<Byte> {
    (bytes: seq<Byte>) => if bytes == [VERSION] + hash then [1, 1, 1, 1] else [2, 2, 2, 2]
  }

  lemma ShortenedIsInvalid(hash: seq<Byte>)
    requires |hash| == 20 && hash[0] == 0
    ensures var payload := Payload(hash, Telling(hash));
      && Encoded(payload) != [] && ValidateAddress(Encoded(payload), Telling(hash)) == Some(false)
  {
    hide Encoded, Decoded, Numeral, Value;
    var payload := Payload(hash, Telling(hash));
    ShortenedAddress(hash, Telling(hash));
    DecodedEncoding(payload);
    var digits: seq<nat> := payload;
    LastDigitsKept(digits, 256, 4);
    var decoded := Decoded(Encoded(payload));
    var n := |decoded| - CHECKSUM_LENGTH;
    assert digits[21..] == [1, 1, 1, 1];
    assert decoded[n..] == [1, 1, 1, 1];
    assert |[decoded[0]] + decoded[1..n]| < |[VERSION] + hash|;
  }

  /** Exactly the keys whose hash does not start with a zero byte have an address that is sure to be valid. */
  lemma AddressValidIff(hash: seq<Byte>)
    requires |hash| == 20
    ensures AlwaysValid(hash) <==> hash[0] != 0
  {
    hide Encoded, ValidateAddress;
    if hash[0] == 0 {
      ShortenedIsInvalid(hash);
      assert |Telling(hash)([VERSION] + hash)| == CHECKSUM_LENGTH;
    } else {
      forall checksum: seq<Byte> -> seq<Byte> | |checksum([VERSION] + hash)| == CHECKSUM_LENGTH
        ensures Encoded(Payload(hash, checksum)) != []
        ensures ValidateAddress(Encoded(Payload(hash, checksum)), checksum) == Some(true)
      {
        AddressIsValid(hash, checksum);
      }
    }
  }

  // ---------------------------------------------------------------- the loops

  function Backwards(s: string): string {
    seq(|s|, i requires 0 <= i < |s| => s[|s| - 1 - i])
  }

  method ReverseBytes(data: array<char>)
    modifies data
    ensures data[..] == Backwards(old(data[..]))
  {
    var i, j := 0, data.Length - 1;
    while i < j
      invariant 0 <= i <= data.Length && j == data.Length - 1 - i && i <= j + 1
      invariant forall k :: 0 <= k < i || j < k < data.Length ==> data[k] == old(data[data.Length - 1 - k])
      invariant forall k :: i <= k <= j ==> data[k] == old(data[k])
    {
      data[i], data[j] := data[j], data[i];
      i, j := i + 1, j - 1;
    }
  }

  /** The symbols in a field of 64 bytes, filled up with zero bytes. */
  function Padded(s: string): string {
    if |s| <= ADDRESS_LENGTH then s + seq(ADDRESS_LENGTH - |s|, _ => '\0') else s[..ADDRESS_LENGTH]
  }

  lemma SymbolsMore(digits: seq<nat>, d: nat)
    requires Digits(digits, 58) && d < 58
    ensures Digits(digits + [d], 58) && d < |ALPHABET|
    ensures SymbolsOf(digits + [d]) == SymbolsOf(digits) + [ALPHABET[d]]
  {
    Symbols();
  }

  lemma SymbolsAfterZero(digits: seq<nat>)
    requires Digits(digits, 58)
    ensures Digits([0] + digits, 58) && |ALPHABET| > 0
    ensures SymbolsOf([0] + digits) == [ALPHABET[0]] + SymbolsOf(digits)
  {
    Symbols();
  }

  lemma NextDigit(x: nat, done: string)
    requires x > 0
    ensures Digits(Numeral(x, 58), 58) && Digits(Numeral(x / 58, 58), 58) && x % 58 < |ALPHABET| && x / 58 < x
    ensures SymbolsOf(Numeral(x, 58)) + Backwards(done)
         == SymbolsOf(Numeral(x / 58, 58)) + Backwards(done + [ALPHABET[x % 58]])
  {
    hide Numeral, SymbolsOf, Backwards, Value;
    NumeralStep(x);
    NumeralValue(x, 58);
    NumeralValue(x / 58, 58);
    SymbolsMore(Numeral(x / 58, 58), x % 58);
    BackwardsMore(done, ALPHABET[x % 58]);
  }

  lemma NumeralStep(x: nat)
    requires x > 0
    ensures x / 58 < x && x % 58 < 58
    ensures Numeral(x, 58) == Numeral(x / 58, 58) + [x % 58]
  {}

  lemma BackwardsMore(s: string, c: char)
    ensures Backwards(s + [c]) == [c] + Backwards(s)
  {}

  lemma FirstSymbol(input: seq<Byte>, symbols: string)
    requires input != [] && Digits(Numeral(Value(input, 256), 58), 58)
    requires symbols == SymbolsOf(Numeral(Value(input, 256), 58))
    ensures |ALPHABET| > 0
    ensures Encoded(input) == if input[0] == 0 then [ALPHABET[0]] + symbols else symbols
  {
    Symbols();
    var digits := Numeral(Value(input, 256), 58);
    hide Numeral, SymbolsOf, Value;
    SymbolsAfterZero(digits);
    assert [] + digits == digits;
  }

  /** The symbols of an encoding, last one first. */
  method SymbolsBackwards(input: seq<Byte>) returns (result: string)
    requires input != []
    ensures Backwards(result) == Encoded(input)
  {
    hide Numeral, SymbolsOf, Encoded, Backwards, Value;
    var x := Value(input, 256);
    ghost var digits := Numeral(x, 58);
    NumeralValue(x, 58);
    result := [];
    EmptyParts(SymbolsOf(digits));
    while x != 0
      invariant Digits(Numeral(x, 58), 58)
      invariant SymbolsOf(digits) == SymbolsOf(Numeral(x, 58)) + Backwards(result)
      decreases x
    {
      NextDigit(x, result);
      var mod := x % 58;
      x := x / 58;
      result := result + [ALPHABET[mod]];
    }
    EmptyParts(Backwards(result));
    FirstSymbol(input, Backwards(result));
    if input[0] == 0 {
      BackwardsMore(result, ALPHABET[0]);
      result := result + [ALPHABET[0]];
    }
  }

  lemma EmptyParts(s: string)
    ensures s + Backwards([]) == s && Numeral(0, 58) == [] && SymbolsOf([]) + s == s
  {}

  method CopyPadded(symbols: array<char>) returns (resultArray: array<char>)
    ensures fresh(resultArray) && resultArray[..] == Padded(symbols[..])
  {
    resultArray := new char[ADDRESS_LENGTH](_ => '\0');
    var n := if symbols.Length < ADDRESS_LENGTH then symbols.Length else ADDRESS_LENGTH;
    for i := 0 to n
      invariant resultArray[..i] == symbols[..i]
      invariant forall k :: i <= k < ADDRESS_LENGTH ==> resultArray[k] == '\0'
    {
      resultArray[i] := symbols[i];
    }
  }

  method Base58Encode(input: seq<Byte>) returns (resultArray: array<char>)
    requires input != []
    ensures fresh(resultArray) && resultArray[..] == Padded(Encoded(input))
    ensures forall i :: 0 <= i < resultArray.Length && resultArray[i] != '\0' ==>
      var c := resultArray[i];
      '1' <= c <= '9' || ('A' <= c <= 'Z' && c != 'I' && c != 'O') || ('a' <= c <= 'z' && c != 'l')
  {
    hide Encoded, Padded;
    EncodedSymbols(input);
    var result := SymbolsBackwards(input);
    var symbols := new char[|result|](i requires 0 <= i < |result| => result[i]);
    assert symbols[..] == result;
    ReverseBytes(symbols);
    resultArray := CopyPadded(symbols);
    PaddedSymbols(Encoded(input));
    assert forall i :: 0 <= i < resultArray.Length ==> resultArray[i] == resultArray[..][i];
  }

  lemma PaddedSymbols(s: string)
    ensures forall i :: 0 <= i < |Padded(s)| && Padded(s)[i] != '\0' ==> i < |s| && Padded(s)[i] == s[i]
  {}

  method Base58Decode(input: string) returns (decoded: seq<Byte>)
    requires input != []
    ensures decoded == Decoded(input)
    ensures (forall i :: 0 <= i < |input| ==> IsSymbol(input[i])) ==> Value(decoded, 256) == Value(Ranks(input), 58)
  {
    if forall i :: 0 <= i < |input| ==> IsSymbol(input[i]) {
      DecodedSymbols(input);
    }
    hide IsSymbol, Rank, Ranks;
    var result := 0;
    assert input[..0] == [];
    for i := 0 to |input|
      invariant result == SymbolsValue(input[..i])
    {
      assert input[..i + 1][..i] == input[..i];
      var charIndex := IndexByte(ALPHABET, input[i]);
      result := result * 58 + charIndex;
    }
    assert input[..|input|] == input;
    NumeralValue(Magnitude(result), 256);
    Symbols();
    decoded := Numeral(Magnitude(result), 256);
    if input[0] == ALPHABET[0] {
      decoded := [0] + decoded;
    } else {
      assert [] + decoded == decoded;
    }
  }
}
