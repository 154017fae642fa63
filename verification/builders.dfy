/** Calldata words as in "Formal Specification of the Encoding" of the Solidity
    Contract ABI Specification, and a decoder that knows nothing of intents. */
module Abi {
  import opened Types
  import opened Text

  const TRANSFER := "a9059cbb"
  const APPROVE := "095ea7b3"
  const EXACT_INPUT_SINGLE := "04e45aaf"
  const EXACT_OUTPUT_SINGLE := "5023b4df"

  predicate FitsUint256(n: nat) { n < Pow16(64) }

  function Zeros(k: nat): (r: string)
    ensures |r| == k && forall i | 0 <= i < k :: r[i] == '0'
  {
    if k == 0 then "" else "0" + Zeros(k - 1)
  }

  /** An address is left-padded to 32 bytes, in lower case. */
  function AddressWord(a: string): (r: string)
    requires IsAddress(a)
    ensures |r| == 64
  {
    Zeros(24) + Lower(a[2..])
  }

  function UintWord(n: nat): (r: string)
    requires FitsUint256(n)
    ensures |r| == 64
  {
    FixedHex(n, 64)
  }

  function Concat(words: seq<string>): string {
    if words == [] then "" else words[0] + Concat(words[1..])
  }

  function Call(selector: string, words: seq<string>): string {
    "0x" + selector + Concat(words)
  }

  // ---- decoding ----

  /** What a transaction does on chain; addresses are 160-bit numbers. */
  datatype Effect =
    | MoveToken(token: nat, to: nat, amount: nat)
    | MoveNative(to: nat, wei: int)
    | GrantAllowance(token: nat, spender: nat, amount: nat)
    | SwapSpending(router: nat, tokenIn: nat, tokenOut: nat, fee: nat, payTo: nat, spend: nat, receiveAtLeast: nat,
                   priceLimit: nat)
    | SwapReceiving(router: nat, tokenIn: nat, tokenOut: nat, fee: nat, payTo: nat, receive: nat, spendAtMost: nat,
                    priceLimit: nat)

  function Words(s: string): seq<nat> {
    if |s| < 64 then [] else [ParseHex(s[..64])] + Words(s[64..])
  }

  predicate IsAddressNumber(n: nat) { n < Pow16(40) }

  function DecodeCall(target: nat, selector: string, args: seq<nat>): Option<Effect> {
    if |args| == 2 && IsAddressNumber(args[0]) then
      if selector == TRANSFER then Some(MoveToken(target, args[0], args[1]))
      else if selector == APPROVE then Some(GrantAllowance(target, args[0], args[1]))
      else None
    else if |args| == 7 && IsAddressNumber(args[0]) && IsAddressNumber(args[1]) && IsAddressNumber(args[3]) then
      if selector == EXACT_INPUT_SINGLE then
        Some(SwapSpending(target, args[0], args[1], args[2], args[3], args[4], args[5], args[6]))
      else if selector == EXACT_OUTPUT_SINGLE then
        Some(SwapReceiving(target, args[0], args[1], args[2], args[3], args[4], args[5], args[6]))
      else None
    else None
  }

  function Decode(tx: TxRequest): Option<Effect> {
    if tx.data == "0x" then Some(MoveNative(AddressValue(tx.to), tx.value))
    else if tx.value != 0 || |tx.data| < 10 || tx.data[..2] != "0x" || (|tx.data| - 10) % 64 != 0 then None
    else DecodeCall(AddressValue(tx.to), tx.data[2..10], Words(tx.data[10..]))
  }

  // ---- words survive the round trip ----

  lemma {:induction false} LeadingZero(s: string)
    ensures ParseHex("0" + s) == ParseHex(s)
  {
    if s == "" {
      assert ("0" + s)[..0] == "";
    } else {
      var n := |s| - 1;
      LeadingZero(s[..n]);
      assert ("0" + s)[..|s|] == "0" + s[..n];
    }
  }

  lemma {:induction false} LeadingZeros(k: nat, s: string)
    ensures ParseHex(Zeros(k) + s) == ParseHex(s)
  {
    if k == 0 {
      assert Zeros(0) + s == s;
    } else {
      assert Zeros(k) + s == "0" + (Zeros(k - 1) + s);
      LeadingZero(Zeros(k - 1) + s);
      LeadingZeros(k - 1, s);
    }
  }

  lemma AddressWordValue(a: string)
    requires IsAddress(a)
    ensures ParseHex(AddressWord(a)) == AddressValue(a)
    ensures IsAddressNumber(AddressValue(a))
  {
    hide ParseHex;
    var digits := a[2..];
    LeadingZeros(24, Lower(digits));
    LowerKeepsHex(digits);
    SameValueIffSameLetters(Lower(digits), digits);
    ParseHexBound(digits);
  }

  lemma LowerKeepsHex(s: string)
    requires AllHex(s)
    ensures AllHex(Lower(s)) && SameLetters(Lower(s), s)
  {
    forall i | 0 <= i < |s| ensures IsHexDigit(Lower(s)[i]) && Lower(Lower(s))[i] == Lower(s)[i] {
      assert IsHexDigit(s[i]);
    }
  }

  lemma AddressWordIsHex(a: string)
    requires IsAddress(a)
    ensures AllHex(AddressWord(a))
  {
    LowerKeepsHex(a[2..]);
  }

  lemma CallIsHex(selector: string, words: seq<string>)
    requires AllHex(selector) && forall w <- words :: AllHex(w)
    ensures |Call(selector, words)| >= 2 && AllHex(Call(selector, words)[2..])
  {
    ConcatIsHex(words);
    assert Call(selector, words)[2..] == selector + Concat(words);
  }

  lemma {:induction false} ConcatIsHex(words: seq<string>)
    requires forall w <- words :: AllHex(w)
    ensures AllHex(Concat(words))
  {
    if words != [] {
      assert AllHex(words[0]);
      ConcatIsHex(words[1..]);
    }
  }

  lemma UintWordIsHex(n: nat)
    requires FitsUint256(n)
    ensures AllHex(UintWord(n))
  {
  }

  /** The data is a selector, as eight digits behind 0x, and these numbers as 32-byte words. */
  predicate CallsWith(data: string, selector: string, args: seq<nat>)
    requires |selector| == 10
  {
    |data| == 10 + 64 * |args| && data[..10] == selector &&
    forall k | 0 <= k < |args| :: ParseHex(data[10 + 64 * k..74 + 64 * k]) == args[k]
  }

  lemma {:induction false} WordInConcat(words: seq<string>, k: nat)
    requires (forall w <- words :: |w| == 64) && k < |words|
    ensures |Concat(words)| == 64 * |words|
    ensures Concat(words)[64 * k..64 * k + 64] == words[k]
  {
    if k > 0 {
      WordInConcat(words[1..], k - 1);
      assert Concat(words)[64..] == Concat(words[1..]);
      assert Concat(words)[64 * k..64 * k + 64] == Concat(words[1..])[64 * (k - 1)..64 * (k - 1) + 64];
    } else {
      ConcatLength(words[1..]);
    }
  }

  lemma {:induction false} ConcatLength(words: seq<string>)
    requires forall w <- words :: |w| == 64
    ensures |Concat(words)| == 64 * |words|
  {
    if words != [] {
      assert words[0] in words;
      ConcatLength(words[1..]);
    }
  }

  function Parsed(words: seq<string>): seq<nat> {
    if words == [] then [] else [ParseHex(words[0])] + Parsed(words[1..])
  }

  lemma {:induction false} ParsedAt(w: seq<string>, k: nat)
    requires k < |w|
    ensures |Parsed(w)| == |w| && Parsed(w)[k] == ParseHex(w[k])
  {
    if k > 0 { ParsedAt(w[1..], k - 1); }
    else if |w| > 1 { ParsedAt(w[1..], 0); }
  }

  lemma CallIsCall(selector: string, words: seq<string>)
    requires |selector| == 8 && forall w <- words :: |w| == 64
    ensures CallsWith(Call(selector, words), "0x" + selector, Parsed(words))
  {
    hide ParseHex;
    ConcatLength(words);
    if words != [] { ParsedAt(words, 0); }
    var data := Call(selector, words);
    assert data[..10] == "0x" + selector && data[10..] == Concat(words);
    forall k | 0 <= k < |words| ensures ParseHex(data[10 + 64 * k..74 + 64 * k]) == Parsed(words)[k] {
      ParsedAt(words, k);
      WordInConcat(words, k);
      assert data[10 + 64 * k..74 + 64 * k] == Concat(words)[64 * k..64 * k + 64];
    }
  }

  lemma {:induction false} WordsOfConcat(words: seq<string>)
    requires forall k | 0 <= k < |words| :: |words[k]| == 64
    ensures Words(Concat(words)) == Parsed(words)
    ensures |Concat(words)| == 64 * |words|
  {
    hide ParseHex;
    if words != [] {
      WordsOfConcat(words[1..]);
      assert Concat(words)[..64] == words[0];
      assert Concat(words)[64..] == Concat(words[1..]);
    }
  }

  lemma DecodeOfCall(tx: TxRequest, selector: string, words: seq<string>)
    requires |selector| == 8 && tx.data == Call(selector, words) && tx.value == 0
    requires forall k | 0 <= k < |words| :: |words[k]| == 64
    ensures Decode(tx) == DecodeCall(AddressValue(tx.to), selector, Parsed(words))
  {
    hide DecodeCall, Parsed, Words, AddressValue;
    WordsOfConcat(words);
    assert tx.data[..2] == "0x" && tx.data[2..10] == selector;
    assert tx.data[10..] == Concat(words);
  }
}

/** From a declarative intent to a transaction plan. */
module Builders {
  import opened Types
  import opened Text
  import opened Abi
  import CanonicalJson
  import Policy

  const DEFAULT_FEE_TIER: nat := 3000

  datatype BuildError = BadChecksum | AmountOutOfRange | ChainNotSupported | UnknownRouter | ProviderFailed

  /** What the 1inch server answers; its content is not under the program's control. */
  datatype OneInchReply = NoUsableReply | Reply(to: string, data: string, value: int)

  function UniswapRouter(chainId: nat): Option<string> {
    match chainId
    case 1 => Some("0x68b3465833fb72A70ecDF485E0e4C7bD8665Fc45")
    case 10 => Some("0x68b3465833fb72A70ecDF485E0e4C7bD8665Fc45")
    case 42161 => Some("0x68b3465833fb72A70ecDF485E0e4C7bD8665Fc45")
    case 8453 => Some("0x2626664c2603336E57B271c5C0b26F421741e481")
    case _ => None
  }

  function OneInchRouter(chainId: nat): Option<string> {
    if chainId == 1 || chainId == 10 || chainId == 42161 || chainId == 8453
    then Some("0x111111125421cA6dc452d289314280a0f8842A65") else None
  }

  // ---- the hash an approval is bound to ----

  /** The request as serialised: big integers have become decimal text. */
  function Members(tx: TxRequest): seq<CanonicalJson.Member> {
    [ CanonicalJson.Member("to", CanonicalJson.Str(tx.to)),
      CanonicalJson.Member("data", CanonicalJson.Str(tx.data)),
      CanonicalJson.Member("value", CanonicalJson.Str(SignedDecimal(tx.value))),
      CanonicalJson.Member("chainId", CanonicalJson.Num(tx.chainId)),
      CanonicalJson.Member("type", CanonicalJson.Str("eip1559")),
      CanonicalJson.Member("maxFeePerGas", CanonicalJson.Str("0")),
      CanonicalJson.Member("maxPriorityFeePerGas", CanonicalJson.Str("0")) ]
  }

  /** keccak stands for keccak256 of the text's bytes. */
  function TxRequestHash(keccak: string -> string, tx: TxRequest): string {
    keccak(CanonicalJson.Canonicalize(Members(tx)))
  }

  ghost predicate Injective(f: string -> string) {
    forall s, t :: f(s) == f(t) ==> s == t
  }

  lemma NamesDiffer()
    ensures var names := ["to", "data", "value", "chainId", "type", "maxFeePerGas", "maxPriorityFeePerGas"];
      forall i, j | 0 <= i < j < 7 :: names[i] != names[j]
  {
    assert "data"[0] != "type"[0];
  }

  lemma MembersHaveDistinctKeys(tx: TxRequest)
    ensures |Members(tx)| == 7 && CanonicalJson.DistinctKeys(Members(tx))
  {
    hide SignedDecimal;
    var names := ["to", "data", "value", "chainId", "type", "maxFeePerGas", "maxPriorityFeePerGas"];
    NamesDiffer();
    assert forall i | 0 <= i < 7 :: Members(tx)[i].key == names[i];
  }

  function Swapped<T>(s: seq<T>, i: nat, j: nat): (t: seq<T>)
    requires i < |s| && j < |s|
    ensures |t| == |s| && multiset(t) == multiset(s)
    ensures forall k :: 0 <= k < |s| ==> t[k] == s[if k == i then j else if k == j then i else k]
  {
    s[i := s[j]][j := s[i]]
  }

  /** The members in the order of their keys. */
  function SortedMembers(tx: TxRequest): (sorted: seq<CanonicalJson.Member>)
    ensures |sorted| == 7 && multiset(sorted) == multiset(Members(tx))
  {
    var ms := Members(tx);
    Swapped(Swapped(Swapped(Swapped(Swapped(ms, 0, 3), 2, 5), 3, 6), 4, 6), 5, 6)
  }

  lemma SortedPlaces(tx: TxRequest)
    ensures |Members(tx)| == 7
    ensures var ms, sorted := Members(tx), SortedMembers(tx);
      sorted[0] == ms[3] && sorted[1] == ms[1] && sorted[2] == ms[5] && sorted[3] == ms[6] &&
      sorted[4] == ms[0] && sorted[5] == ms[4] && sorted[6] == ms[2]
  {
    MemberKeys(tx);
    hide Members, Swapped;
  }

  lemma MembersSorted(tx: TxRequest)
    ensures CanonicalJson.Canonicalize(Members(tx)) == CanonicalJson.RenderObject(SortedMembers(tx))
  {
    hide Members, SortedMembers, CanonicalJson.Before;
    var ms, sorted := Members(tx), SortedMembers(tx);
    MembersHaveDistinctKeys(tx);
    MemberKeys(tx);
    SortedPlaces(tx);
    KeyOrder();
    CanonicalJson.SortedIsSort(ms, sorted);
  }

  lemma MemberKeys(tx: TxRequest)
    ensures var ms := Members(tx);
      |ms| == 7 && ms[0].key == "to" && ms[1].key == "data" && ms[2].key == "value" && ms[3].key == "chainId" &&
      ms[4].key == "type" && ms[5].key == "maxFeePerGas" && ms[6].key == "maxPriorityFeePerGas"
  {
  }

  lemma KeyOrder()
    ensures CanonicalJson.Before("chainId", "data") && CanonicalJson.Before("data", "maxFeePerGas")
    ensures CanonicalJson.Before("maxFeePerGas", "maxPriorityFeePerGas")
    ensures CanonicalJson.Before("maxPriorityFeePerGas", "to") && CanonicalJson.Before("to", "type")
    ensures CanonicalJson.Before("type", "value")
  {
    CanonicalJson.BeforeIsLexicographic("maxFeePerGas", "maxPriorityFeePerGas");
    assert CanonicalJson.SmallerAt("maxFeePerGas", "maxPriorityFeePerGas", 3);
  }

  /** The very text that is hashed: the seven members in the order of their keys, the amounts as
      decimal texts, without spaces. */
  lemma RequestText(tx: TxRequest)
    ensures CanonicalJson.Canonicalize(Members(tx)) == "{" + CanonicalJson.Commas([
      CanonicalJson.NumberField("chainId", tx.chainId),
      CanonicalJson.StringField("data", CanonicalJson.Body(tx.data)),
      CanonicalJson.StringField("maxFeePerGas", "0"),
      CanonicalJson.StringField("maxPriorityFeePerGas", "0"),
      CanonicalJson.StringField("to", CanonicalJson.Body(tx.to)),
      CanonicalJson.StringField("type", "eip1559"),
      CanonicalJson.StringField("value", SignedDecimal(tx.value))]) + "}"
  {
    hide SignedDecimal, Members, SortedMembers, CanonicalJson.Body, CanonicalJson.RenderObject, CanonicalJson.Commas;
    hide CanonicalJson.Canonicalize, CanonicalJson.NumberField, CanonicalJson.StringField, CanonicalJson.RenderMember;
    MembersSorted(tx);
    SortedPlaces(tx);
    MemberTexts(tx);
    CanonicalJson.ObjectText(SortedMembers(tx));
    assert CanonicalJson.Parts(SortedMembers(tx)) == [
      CanonicalJson.NumberField("chainId", tx.chainId),
      CanonicalJson.StringField("data", CanonicalJson.Body(tx.data)),
      CanonicalJson.StringField("maxFeePerGas", "0"),
      CanonicalJson.StringField("maxPriorityFeePerGas", "0"),
      CanonicalJson.StringField("to", CanonicalJson.Body(tx.to)),
      CanonicalJson.StringField("type", "eip1559"),
      CanonicalJson.StringField("value", SignedDecimal(tx.value))];
  }

  lemma MemberTexts(tx: TxRequest)
    ensures |Members(tx)| == 7
    ensures var ms := Members(tx);
      CanonicalJson.RenderMember(ms[0]) == CanonicalJson.StringField("to", CanonicalJson.Body(tx.to)) &&
      CanonicalJson.RenderMember(ms[1]) == CanonicalJson.StringField("data", CanonicalJson.Body(tx.data)) &&
      CanonicalJson.RenderMember(ms[2]) == CanonicalJson.StringField("value", SignedDecimal(tx.value)) &&
      CanonicalJson.RenderMember(ms[3]) == CanonicalJson.NumberField("chainId", tx.chainId) &&
      CanonicalJson.RenderMember(ms[4]) == CanonicalJson.StringField("type", "eip1559") &&
      CanonicalJson.RenderMember(ms[5]) == CanonicalJson.StringField("maxFeePerGas", "0") &&
      CanonicalJson.RenderMember(ms[6]) == CanonicalJson.StringField("maxPriorityFeePerGas", "0")
  {
    hide CanonicalJson.RenderMember, CanonicalJson.StringField, CanonicalJson.NumberField, CanonicalJson.Body;
    hide SignedDecimal;
    PlainTexts(tx);
    CanonicalJson.StringMember("to", tx.to);
    CanonicalJson.StringMember("data", tx.data);
    CanonicalJson.StringMember("value", SignedDecimal(tx.value));
    CanonicalJson.NumberMember("chainId", tx.chainId);
    CanonicalJson.StringMember("type", "eip1559");
    CanonicalJson.StringMember("maxFeePerGas", "0");
    CanonicalJson.StringMember("maxPriorityFeePerGas", "0");
    CanonicalJson.PlainBody(SignedDecimal(tx.value));
    CanonicalJson.PlainBody("eip1559");
    CanonicalJson.PlainBody("0");
  }

  lemma PlainTexts(tx: TxRequest)
    ensures CanonicalJson.Plain(SignedDecimal(tx.value))
  {
    CanonicalJson.NumberCharacters(tx.value);
    assert forall k | 0 <= k < |SignedDecimal(tx.value)| :: SignedDecimal(tx.value)[k] in SignedDecimal(tx.value);
  }

  lemma SameKeys(s: TxRequest, t: TxRequest, k: nat)
    requires k < 7
    ensures |Members(s)| == |Members(t)| == 7 && Members(s)[k].key == Members(t)[k].key
  {
  }

  lemma SameMembers(s: TxRequest, t: TxRequest, k: nat)
    requires multiset(Members(s)) == multiset(Members(t)) && k < 7
    ensures |Members(s)| == |Members(t)| == 7 && Members(s)[k] == Members(t)[k]
  {
    hide Members;
    SameKeys(s, t, k);
    MembersHaveDistinctKeys(t);
    assert Members(s)[k] in multiset(Members(t));
    var j :| 0 <= j < 7 && Members(t)[j] == Members(s)[k];
  }

  lemma MemberValues(tx: TxRequest)
    ensures |Members(tx)| == 7
    ensures Members(tx)[0].value == CanonicalJson.Str(tx.to) && Members(tx)[1].value == CanonicalJson.Str(tx.data)
    ensures Members(tx)[2].value == CanonicalJson.Str(SignedDecimal(tx.value))
    ensures Members(tx)[3].value == CanonicalJson.Num(tx.chainId)
  {
  }

  lemma MembersPinRequest(s: TxRequest, t: TxRequest)
    requires multiset(Members(s)) == multiset(Members(t))
    ensures s == t
  {
    hide SignedDecimal, Members;
    MemberValues(s);
    MemberValues(t);
    SameMembers(s, t, 0);
    SameMembers(s, t, 1);
    SameMembers(s, t, 2);
    SameMembers(s, t, 3);
    SignedDecimalInjective(s.value, t.value);
  }

  /** The hash pins down the whole request: recipient, data, value and chain. */
  lemma HashBindsRequest(keccak: string -> string, s: TxRequest, t: TxRequest)
    requires Injective(keccak)
    ensures TxRequestHash(keccak, s) == TxRequestHash(keccak, t) <==> s == t
  {
    hide Members, CanonicalJson.Canonicalize;
    if TxRequestHash(keccak, s) == TxRequestHash(keccak, t) {
      MembersHaveDistinctKeys(s);
      MembersHaveDistinctKeys(t);
      CanonicalJson.CanonicalFormIsExact(Members(s), Members(t));
      MembersPinRequest(s, t);
    }
  }

  // ---- builders ----

  /** The checksum spelling of ERC-55: a letter is upper-case exactly where the hash of the
      lower-case digits has a digit of 8 or more. */
  function Checksummed(keccak: string -> string, a: string): string
    requires IsAddress(a)
  {
    var digits := Lower(a)[2..];
    var hash := keccak(digits);
    "0x" + seq(40, k requires 0 <= k < 40 =>
      if k + 2 < |hash| && HexValue(hash[k + 2]) >= 8 then UpperChar(digits[k]) else digits[k])
  }

  /** The encoder takes an address in lower case or in its checksum spelling. */
  predicate Encodable(keccak: string -> string, a: string)
    requires IsAddress(a)
  {
    Lower(a) == a || Checksummed(keccak, a) == a
  }

  /** The hash has one of the digits 8 to f at place k. */
  predicate Raised(hash: string, k: nat) { k < |hash| && hash[k] in "89abcdefABCDEF" }

  /** An address encodes exactly when it has no upper-case letter, or just the letters in upper case
      that the hash raises. */
  lemma EncodableIff(keccak: string -> string, a: string)
    requires IsAddress(a)
    ensures var hash := keccak(Lower(a)[2..]);
      Encodable(keccak, a) <==>
        (forall k | 2 <= k < 42 :: !('A' <= a[k] <= 'Z')) ||
        (forall k | 2 <= k < 42 :: if Raised(hash, k) then !('a' <= a[k] <= 'z') else !('A' <= a[k] <= 'Z'))
  {
    hide Raised, Checksummed, Lower;
    var hash, spelled := keccak(Lower(a)[2..]), Checksummed(keccak, a);
    SpelledAt(keccak, a, 2);
    forall k | 2 <= k < 42
      ensures spelled[k] == a[k] <==> if Raised(hash, k) then !('a' <= a[k] <= 'z') else !('A' <= a[k] <= 'Z')
      ensures Lower(a)[k] == a[k] <==> !('A' <= a[k] <= 'Z') {
      SpelledAt(keccak, a, k);
    }
    SameDigits(Lower(a), a);
    SameDigits(spelled, a);
  }

  lemma SameDigits(s: string, a: string)
    requires |s| == |a| == 42 && s[..2] == a[..2]
    ensures s == a <==> forall k | 2 <= k < 42 :: s[k] == a[k]
  {
    assert s[0] == s[..2][0] && s[1] == s[..2][1] && a[0] == a[..2][0] && a[1] == a[..2][1];
  }

  lemma SpelledAt(keccak: string -> string, a: string, k: nat)
    requires IsAddress(a) && 2 <= k < 42
    ensures |Checksummed(keccak, a)| == 42 && Checksummed(keccak, a)[..2] == a[..2]
    ensures Lower(a)[k] == LowerChar(a[k]) && Lower(a)[..2] == a[..2]
    ensures Checksummed(keccak, a)[k] ==
      if Raised(keccak(Lower(a)[2..]), k) then UpperChar(LowerChar(a[k])) else LowerChar(a[k])
  {
    var hash := keccak(Lower(a)[2..]);
    assert Checksummed(keccak, a)[k] == Checksummed(keccak, a)[2..][k - 2];
    if k < |hash| { HighDigits(hash[k]); }
  }

  lemma HighDigits(c: char)
    ensures c in "89abcdefABCDEF" <==> HexValue(c) >= 8
  {
  }

  function Plan(keccak: string -> string, i: Intent, to: string, data: string, value: int)
    : Result<BuildPlan, BuildError>
  {
    var tx := TxRequest(to, data, value, i.chainId);
    Ok(BuildPlan(i.id, tx, TxRequestHash(keccak, tx)))
  }

  /** An intent the request schema lets through. */
  predicate WellFormed(i: Intent) {
    && i.chainId > 0
    && IsAddress(i.wallet)
    && (forall k | 0 <= k < |TokenAddresses(i.action)| :: IsAddress(TokenAddresses(i.action)[k]))
    && (ContractAddress(i.action).Some? ==> IsAddress(ContractAddress(i.action).value))
    && (Recipient(i.action).Some? ==> IsAddress(Recipient(i.action).value))
    && AllDigits(ValueText(i.action))
  }

  /** A transfer of nothing to the zero address. */
  function NullIntent(): (i: Intent)
    ensures WellFormed(i)
  {
    var zero := "0x" + Zeros(40);
    assert zero[2..] == Zeros(40);
    Intent("", 1, zero, TransferNative(zero, "0"), 0)
  }

  function BuildErc20(keccak: string -> string, i: Intent, selector: string, asset: string, party: string,
                      amount: string)
    : Result<BuildPlan, BuildError>
    requires IsAddress(party)
  {
    var n := BigIntOf(amount);
    if !Encodable(keccak, party) then Err(BadChecksum)
    else if !FitsUint256(n) then Err(AmountOutOfRange)
    else Plan(keccak, i, asset, Call(selector, [AddressWord(party), UintWord(n)]), 0)
  }

  function SwapWords(i: Intent, assetIn: string, assetOut: string, first: nat, second: nat): (words: seq<string>)
    requires IsAddress(i.wallet) && IsAddress(assetIn) && IsAddress(assetOut)
    requires FitsUint256(first) && FitsUint256(second)
  {
    SmallNumbersFit();
    [ AddressWord(assetIn), AddressWord(assetOut), UintWord(DEFAULT_FEE_TIER), AddressWord(i.wallet),
      UintWord(first), UintWord(second), UintWord(0) ]
  }

  lemma SwapWordsAreWords(i: Intent, assetIn: string, assetOut: string, first: nat, second: nat)
    requires IsAddress(i.wallet) && IsAddress(assetIn) && IsAddress(assetOut)
    requires FitsUint256(first) && FitsUint256(second)
    ensures |SwapWords(i, assetIn, assetOut, first, second)| == 7
    ensures forall w <- SwapWords(i, assetIn, assetOut, first, second) :: |w| == 64
  {
    hide AddressWord, UintWord, IsAddress, FitsUint256;
    SmallNumbersFit();
  }

  lemma SmallNumbersFit()
    ensures FitsUint256(DEFAULT_FEE_TIER) && FitsUint256(0)
  {
    Pow16Grows(3, 64);
    assert Pow16(3) == 16 * Pow16(2) == 16 * 16 * Pow16(1);
  }

  lemma {:induction false} Pow16Grows(v: nat, w: nat)
    requires v <= w
    ensures Pow16(v) <= Pow16(w)
  {
    if v < w { Pow16Grows(v, w - 1); }
  }

  function BuildSwap(keccak: string -> string, i: Intent): Result<BuildPlan, BuildError>
    requires WellFormed(i) && (i.action.SwapExactIn? || i.action.SwapExactOut?)
  {
    var expected := UniswapRouter(i.chainId);
    if expected.None? then Err(ChainNotSupported)
    else if !SameLetters(i.action.router, expected.value) then Err(UnknownRouter)
    else
      var assets := TokenAddresses(i.action);
      assert IsAddress(assets[0]) && IsAddress(assets[1]);
      if !Encodable(keccak, assets[0]) || !Encodable(keccak, assets[1]) || !Encodable(keccak, i.wallet) then
        Err(BadChecksum)
      else match i.action
      case SwapExactIn(router, _, assetIn, assetOut, amountIn, minAmountOut) =>
        var spend, least := BigIntOf(amountIn), BigIntOf(minAmountOut);
        if !FitsUint256(spend) || !FitsUint256(least) then Err(AmountOutOfRange)
        else Plan(keccak, i, router, Call(EXACT_INPUT_SINGLE, SwapWords(i, assetIn, assetOut, spend, least)), 0)
      case SwapExactOut(router, _, assetIn, assetOut, amountOut, maxAmountIn) =>
        var receive, most := BigIntOf(amountOut), BigIntOf(maxAmountIn);
        if !FitsUint256(receive) || !FitsUint256(most) then Err(AmountOutOfRange)
        else Plan(keccak, i, router, Call(EXACT_OUTPUT_SINGLE, SwapWords(i, assetIn, assetOut, receive, most)), 0)
  }

  function BuildSwapOneInch(keccak: string -> string, i: Intent, reply: OneInchReply): Result<BuildPlan, BuildError>
    requires i.action.SwapExactIn?
  {
    var expected := OneInchRouter(i.chainId);
    if expected.None? then Err(ChainNotSupported)
    else if !SameLetters(i.action.router, expected.value) then Err(UnknownRouter)
    else match reply
      case NoUsableReply => Err(ProviderFailed)
      case Reply(to, data, value) => Plan(keccak, i, to, data, value)
  }

  /** client is None when no aggregator is configured. */
  function BuildFromIntent(keccak: string -> string, i: Intent, client: Option<OneInchReply>)
    : Result<BuildPlan, BuildError>
    requires WellFormed(i)
  {
    match i.action
    case Transfer(asset, to, amount) => BuildErc20(keccak, i, TRANSFER, asset, to, amount)
    case TransferNative(to, amount) => Plan(keccak, i, to, "0x", BigIntOf(amount))
    case Approve(asset, spender, amount) => BuildErc20(keccak, i, APPROVE, asset, spender, amount)
    case SwapExactOut(_, _, _, _, _, _) => BuildSwap(keccak, i)
    case SwapExactIn(_, provider, _, _, _, _) =>
      if provider == OneInch && client.Some? then
        match BuildSwapOneInch(keccak, i, client.value)
        case Ok(plan) => Ok(plan)
        case Err(_) => BuildSwap(keccak, i)
      else BuildSwap(keccak, i)
  }

  // ---- small intents under a policy without caps ----

  /** Both caps "0", approval above 9 wei or a score of 50. */
  function NoCaps(maxTxPerHour: nat): PolicyConfig {
    PolicyConfig("0", "0", [], [], [1], [], 50, "9", maxTxPerHour)
  }

  /** Five wei, from the account whose first digit is spelled like this. */
  function SmallTransfer(first: char): (i: Intent)
    requires IsHexDigit(first)
    ensures WellFormed(i) && i.action.TransferNative? && i.chainId == 1 && Policy.Value(i) == 5
    ensures i.wallet == "0x" + [first] + Zeros(39)
  {
    var zero := "0x" + Zeros(40);
    var wallet := "0x" + [first] + Zeros(39);
    assert zero[2..] == Zeros(40);
    assert wallet[2..] == [first] + Zeros(39);
    assert BigIntOf("5") == 5;
    Intent("6f1e4c2a-9b3d-4f60-8a57-2c1d0e9b7a34", 1, wallet, TransferNative(zero, "5"), 0)
  }

  /** The zero address has no letters. */
  lemma SmallTargetEncodes(keccak: string -> string)
    ensures IsAddress(SmallTransfer('a').action.to) && Encodable(keccak, SmallTransfer('a').action.to)
  {
    var to := SmallTransfer('a').action.to;
    assert to[2..] == Zeros(40);
    assert Lower(to) == to;
  }

  /** Against docs/configuration.md:88-89: with both caps "0" every intent of up to nine wei on an
      allowed chain, transfers and approvals alike, is allowed, and asked for only when its score is
      too high. */
  lemma NoCapsAllowValue(i: Intent, max: nat, o: Policy.Options)
    requires WellFormed(i) && i.chainId == 1 && 0 < Policy.Value(i) <= 9
    requires o.recentTxCount.GetOr(0) < max
    ensures Policy.Decide(i, NoCaps(max), o) ==
      if o.riskScore.GetOr(0) <= 50 then Policy.Allow else Policy.RequireApproval
  {
    assert BigIntOf("9") == 9 && BigIntOf("0") == 0;
  }

  /** One such intent. */
  lemma ZeroCapsAllowValue()
    ensures WellFormed(SmallTransfer('a')) && Policy.Value(SmallTransfer('a')) > 0
    ensures BigIntOf(NoCaps(1).maxValueWei) == BigIntOf(NoCaps(1).maxApprovalAmount) == 0
    ensures Policy.Decide(SmallTransfer('a'), NoCaps(1), Policy.Options(Some(0), Some(0))) == Policy.Allow
  {
    NoCapsAllowValue(SmallTransfer('a'), 1, Policy.Options(Some(0), Some(0)));
    assert BigIntOf("0") == 0;
  }

  // ---- meaning ----

  /** What the intent asks for, in on-chain terms. */
  function Meaning(i: Intent): Effect {
    match i.action
    case Transfer(asset, to, amount) => MoveToken(AddressValue(asset), AddressValue(to), BigIntOf(amount))
    case TransferNative(to, amount) => MoveNative(AddressValue(to), BigIntOf(amount))
    case Approve(asset, spender, amount) =>
      GrantAllowance(AddressValue(asset), AddressValue(spender), BigIntOf(amount))
    case SwapExactIn(router, _, assetIn, assetOut, amountIn, minAmountOut) =>
      SwapSpending(AddressValue(router), AddressValue(assetIn), AddressValue(assetOut), DEFAULT_FEE_TIER,
                   AddressValue(i.wallet), BigIntOf(amountIn), BigIntOf(minAmountOut), 0)
    case SwapExactOut(router, _, assetIn, assetOut, amountOut, maxAmountIn) =>
      SwapReceiving(AddressValue(router), AddressValue(assetIn), AddressValue(assetOut), DEFAULT_FEE_TIER,
                    AddressValue(i.wallet), BigIntOf(amountOut), BigIntOf(maxAmountIn), 0)
  }

  /** The most the effect can take from the wallet, or let a spender take. */
  function Spend(e: Effect): int {
    match e
    case MoveToken(_, _, amount) => amount
    case MoveNative(_, wei) => wei
    case GrantAllowance(_, _, amount) => amount
    case SwapSpending(_, _, _, _, _, spend, _, _) => spend
    case SwapReceiving(_, _, _, _, _, _, spendAtMost, _) => spendAtMost
  }

  predicate AmountsFit(a: Action) {
    match a
    case Transfer(_, _, amount) => FitsUint256(BigIntOf(amount))
    case TransferNative(_, _) => true
    case Approve(_, _, amount) => FitsUint256(BigIntOf(amount))
    case SwapExactIn(_, _, _, _, amountIn, minAmountOut) =>
      FitsUint256(BigIntOf(amountIn)) && FitsUint256(BigIntOf(minAmountOut))
    case SwapExactOut(_, _, _, _, amountOut, maxAmountIn) =>
      FitsUint256(BigIntOf(amountOut)) && FitsUint256(BigIntOf(maxAmountIn))
  }

  /** Every address that becomes an argument of the call passes the encoder. */
  predicate AddressesEncode(keccak: string -> string, i: Intent)
    requires WellFormed(i)
  {
    match i.action
    case Transfer(_, to, _) => Encodable(keccak, to)
    case TransferNative(_, _) => true
    case Approve(_, spender, _) => Encodable(keccak, spender)
    case _ =>
      var assets := TokenAddresses(i.action);
      assert IsAddress(assets[0]) && IsAddress(assets[1]);
      Encodable(keccak, assets[0]) && Encodable(keccak, assets[1]) && Encodable(keccak, i.wallet)
  }

  predicate NamesRouter(i: Intent, router: Option<string>) {
    (i.action.SwapExactIn? || i.action.SwapExactOut?) && router.Some? && SameLetters(i.action.router, router.value)
  }

  /** A swap that is left to the aggregator, if there is one. */
  predicate NamesServer(i: Intent) {
    i.action.SwapExactIn? && i.action.provider == OneInch && NamesRouter(i, OneInchRouter(i.chainId))
  }

  /** The plan comes from the aggregator's reply. */
  predicate ViaOneInch(i: Intent, client: Option<OneInchReply>) {
    NamesServer(i) && client.Some? && client.value.Reply?
  }

  /** When building succeeds at all. */
  lemma BuildSucceedsIff(keccak: string -> string, i: Intent, client: Option<OneInchReply>)
    requires WellFormed(i)
    ensures BuildFromIntent(keccak, i, client).Ok? <==>
      ViaOneInch(i, client) ||
      (AddressesEncode(keccak, i) && AmountsFit(i.action) &&
       (i.action.SwapExactIn? || i.action.SwapExactOut? ==> NamesRouter(i, UniswapRouter(i.chainId))))
  {
    hide AddressWord, UintWord, Call, SwapWords, TxRequestHash, Text.BigIntOf, Text.SameLetters, FitsUint256;
    hide UniswapRouter, OneInchRouter, Encodable;
  }

  lemma Erc20Decodes(keccak: string -> string, i: Intent, selector: string, asset: string, party: string,
                     amount: string)
    requires IsAddress(party) && (selector == TRANSFER || selector == APPROVE)
    requires BuildErc20(keccak, i, selector, asset, party, amount).Ok?
    ensures Decode(BuildErc20(keccak, i, selector, asset, party, amount).value.tx) == Some(
      if selector == TRANSFER then MoveToken(AddressValue(asset), AddressValue(party), BigIntOf(amount))
      else GrantAllowance(AddressValue(asset), AddressValue(party), BigIntOf(amount)))
  {
    hide Decode, AddressWord, UintWord, AddressValue, BigIntOf, ParseHex, IsAddressNumber, TxRequestHash, Encodable;
    var words := [AddressWord(party), UintWord(BigIntOf(amount))];
    DecodeOfCall(BuildErc20(keccak, i, selector, asset, party, amount).value.tx, selector, words);
    AddressWordValue(party);
    UintWordValue(BigIntOf(amount));
    ParsedAt(words, 0);
    ParsedAt(words, 1);
  }

  lemma SelectorTexts()
    ensures "0x" + TRANSFER == "0xa9059cbb" && "0x" + APPROVE == "0x095ea7b3"
    ensures "0x" + EXACT_INPUT_SINGLE == "0x04e45aaf" && "0x" + EXACT_OUTPUT_SINGLE == "0x5023b4df"
  {
  }

  lemma Erc20Calls(keccak: string -> string, i: Intent, selector: string, asset: string, party: string, amount: string)
    requires IsAddress(party) && |selector| == 8
    requires BuildErc20(keccak, i, selector, asset, party, amount).Ok?
    ensures CallsWith(BuildErc20(keccak, i, selector, asset, party, amount).value.tx.data, "0x" + selector,
                      [AddressValue(party), BigIntOf(amount)])
  {
    hide AddressWord, UintWord, AddressValue, BigIntOf, ParseHex, TxRequestHash, Encodable, CallsWith, Call;
    AddressWordValue(party);
    UintWordValue(BigIntOf(amount));
    var words := [AddressWord(party), UintWord(BigIntOf(amount))];
    ParsedAt(words, 0);
    ParsedAt(words, 1);
    CallIsCall(selector, words);
    assert Parsed(words) == [AddressValue(party), BigIntOf(amount)];
  }

  lemma SwapCalls(keccak: string -> string, i: Intent)
    requires WellFormed(i) && (i.action.SwapExactIn? || i.action.SwapExactOut?)
    requires BuildSwap(keccak, i).Ok?
    ensures var a := i.action;
      CallsWith(BuildSwap(keccak, i).value.tx.data, if a.SwapExactIn? then "0x04e45aaf" else "0x5023b4df",
                [AddressValue(a.assetIn), AddressValue(a.assetOut), 3000, AddressValue(i.wallet),
                 BigIntOf(if a.SwapExactIn? then a.amountIn else a.amountOut),
                 BigIntOf(if a.SwapExactIn? then a.minAmountOut else a.maxAmountIn), 0])
  {
    hide AddressValue, BigIntOf, IsAddressNumber, TxRequestHash, Call, SwapWords, CallsWith;
    hide UniswapRouter, SameLetters, Parsed, IsAddress, FitsUint256, AllDigits, Encodable;
    var a := i.action;
    assert IsAddress(TokenAddresses(a)[0]) && IsAddress(TokenAddresses(a)[1]);
    var first := BigIntOf(if a.SwapExactIn? then a.amountIn else a.amountOut);
    var second := BigIntOf(if a.SwapExactIn? then a.minAmountOut else a.maxAmountIn);
    var words := SwapWords(i, a.assetIn, a.assetOut, first, second);
    SwapWordsAreWords(i, a.assetIn, a.assetOut, first, second);
    SwapArguments(i, a.assetIn, a.assetOut, first, second);
    SelectorTexts();
    CallIsCall(EXACT_INPUT_SINGLE, words);
    CallIsCall(EXACT_OUTPUT_SINGLE, words);
  }

  /** The text of the calldata, without a decoder: the function selectors of ERC-20 and of the swap
      router, and the arguments word by word; and where the request goes. */
  lemma BuiltCalldata(keccak: string -> string, i: Intent, client: Option<OneInchReply>)
    requires WellFormed(i) && !ViaOneInch(i, client) && BuildFromIntent(keccak, i, client).Ok?
    ensures var tx := BuildFromIntent(keccak, i, client).value.tx;
      match i.action
      case TransferNative(to, amount) => tx.to == to && tx.data == "0x" && tx.value == BigIntOf(amount)
      case Transfer(asset, to, amount) =>
        tx.to == asset && tx.value == 0 && CallsWith(tx.data, "0xa9059cbb", [AddressValue(to), BigIntOf(amount)])
      case Approve(asset, spender, amount) =>
        tx.to == asset && tx.value == 0 && CallsWith(tx.data, "0x095ea7b3", [AddressValue(spender), BigIntOf(amount)])
      case SwapExactIn(router, _, assetIn, assetOut, amountIn, minAmountOut) =>
        tx.to == router && tx.value == 0 &&
        CallsWith(tx.data, "0x04e45aaf", [AddressValue(assetIn), AddressValue(assetOut), 3000, AddressValue(i.wallet),
                                          BigIntOf(amountIn), BigIntOf(minAmountOut), 0])
      case SwapExactOut(router, _, assetIn, assetOut, amountOut, maxAmountIn) =>
        tx.to == router && tx.value == 0 &&
        CallsWith(tx.data, "0x5023b4df", [AddressValue(assetIn), AddressValue(assetOut), 3000, AddressValue(i.wallet),
                                          BigIntOf(amountOut), BigIntOf(maxAmountIn), 0])
  {
    hide TxRequestHash, BigIntOf, SameLetters, IsAddress, AllDigits, AddressValue, CallsWith, AddressWord, UintWord;
    hide Call, SwapWords, UniswapRouter, OneInchRouter, Encodable, FitsUint256;
    SelectorTexts();
    match i.action
    case Transfer(asset, to, amount) => Erc20Calls(keccak, i, TRANSFER, asset, to, amount);
    case TransferNative(_, _) =>
    case Approve(asset, spender, amount) => Erc20Calls(keccak, i, APPROVE, asset, spender, amount);
    case SwapExactIn(_, _, _, _, _, _) => SwapCalls(keccak, i);
    case SwapExactOut(_, _, _, _, _, _) => SwapCalls(keccak, i);
  }

  lemma UintWordValue(n: nat)
    requires FitsUint256(n)
    ensures ParseHex(UintWord(n)) == n
  {
  }

  lemma SevenParsed(w: seq<string>)
    requires |w| == 7
    ensures Parsed(w) == [ParseHex(w[0]), ParseHex(w[1]), ParseHex(w[2]), ParseHex(w[3]), ParseHex(w[4]),
                          ParseHex(w[5]), ParseHex(w[6])]
  {
    hide ParseHex;
    ParsedAt(w, 0); ParsedAt(w, 1); ParsedAt(w, 2); ParsedAt(w, 3);
    ParsedAt(w, 4); ParsedAt(w, 5); ParsedAt(w, 6);
  }

  lemma SwapArguments(i: Intent, assetIn: string, assetOut: string, first: nat, second: nat)
    requires IsAddress(i.wallet) && IsAddress(assetIn) && IsAddress(assetOut)
    requires FitsUint256(first) && FitsUint256(second)
    ensures Parsed(SwapWords(i, assetIn, assetOut, first, second)) ==
      [ AddressValue(assetIn), AddressValue(assetOut), DEFAULT_FEE_TIER, AddressValue(i.wallet), first, second, 0 ]
    ensures IsAddressNumber(AddressValue(assetIn)) && IsAddressNumber(AddressValue(assetOut)) &&
            IsAddressNumber(AddressValue(i.wallet))
  {
    hide AddressWord, UintWord, AddressValue, ParseHex, IsAddressNumber, Parsed, IsAddress, FitsUint256;
    SwapWordsAreWords(i, assetIn, assetOut, first, second);
    SevenParsed(SwapWords(i, assetIn, assetOut, first, second));
    SmallNumbersFit();
    AddressWordValue(assetIn);
    AddressWordValue(assetOut);
    AddressWordValue(i.wallet);
    UintWordValue(DEFAULT_FEE_TIER);
    UintWordValue(first);
    UintWordValue(second);
    UintWordValue(0);
  }

  lemma SwapDecodes(keccak: string -> string, i: Intent)
    requires WellFormed(i) && (i.action.SwapExactIn? || i.action.SwapExactOut?)
    requires BuildSwap(keccak, i).Ok?
    ensures Decode(BuildSwap(keccak, i).value.tx) == Some(Meaning(i))
  {
    hide Decode, AddressValue, BigIntOf, IsAddressNumber, TxRequestHash, Call, SwapWords;
    hide UniswapRouter, SameLetters, Parsed, IsAddress, FitsUint256, AllDigits, Encodable;
    var a := i.action;
    assert IsAddress(TokenAddresses(a)[0]) && IsAddress(TokenAddresses(a)[1]);
    var first := BigIntOf(if a.SwapExactIn? then a.amountIn else a.amountOut);
    var second := BigIntOf(if a.SwapExactIn? then a.minAmountOut else a.maxAmountIn);
    var words := SwapWords(i, a.assetIn, a.assetOut, first, second);
    SwapWordsAreWords(i, a.assetIn, a.assetOut, first, second);
    DecodeOfCall(BuildSwap(keccak, i).value.tx,
                 if a.SwapExactIn? then EXACT_INPUT_SINGLE else EXACT_OUTPUT_SINGLE, words);
    SwapArguments(i, a.assetIn, a.assetOut, first, second);
  }

  lemma NativeDecodes(keccak: string -> string, i: Intent)
    requires WellFormed(i) && i.action.TransferNative?
    ensures Decode(BuildFromIntent(keccak, i, None).value.tx) == Some(Meaning(i))
  {
    hide TxRequestHash, BigIntOf, IsAddress, AllDigits, AddressValue;
  }

  /** Building preserves meaning: decoding the built transaction gives back exactly what the
      intent asks for, on its chain, and the decoded spend is the amount the policy looked at. */
  lemma BuildPreservesMeaning(keccak: string -> string, i: Intent, client: Option<OneInchReply>)
    requires WellFormed(i) && !ViaOneInch(i, client) && BuildFromIntent(keccak, i, client).Ok?
    ensures var plan := BuildFromIntent(keccak, i, client).value;
      && Decode(plan.tx) == Some(Meaning(i))
      && Spend(Meaning(i)) == Policy.Value(i)
      && plan.tx.chainId == i.chainId && plan.intentId == i.id
      && plan.txRequestHash == TxRequestHash(keccak, plan.tx)
  {
    hide TxRequestHash, BigIntOf, SameLetters, IsAddress, AllDigits, AddressValue;
    hide BuildErc20, BuildSwap, Decode;
    PlanFields(keccak, i, client);
    match i.action
    case Transfer(asset, to, amount) => Erc20Decodes(keccak, i, TRANSFER, asset, to, amount);
    case TransferNative(_, _) => NativeDecodes(keccak, i);
    case Approve(asset, spender, amount) => Erc20Decodes(keccak, i, APPROVE, asset, spender, amount);
    case SwapExactIn(_, _, _, _, _, _) => SwapDecodes(keccak, i);
    case SwapExactOut(_, _, _, _, _, _) => SwapDecodes(keccak, i);
  }

  /** The address a request the program builds itself goes to. */
  function Target(a: Action): string {
    match a
    case Transfer(asset, _, _) => asset
    case TransferNative(to, _) => to
    case Approve(asset, _, _) => asset
    case SwapExactIn(router, _, _, _, _, _) => router
    case SwapExactOut(router, _, _, _, _, _) => router
  }

  /** A request to that address, with hexadecimal data and no negative value. */
  predicate Regular(tx: TxRequest, to: string) {
    tx.to == to && IsAddress(to) && |tx.data| >= 2 && AllHex(tx.data[2..]) && tx.value >= 0
  }

  lemma Erc20IsRegular(keccak: string -> string, i: Intent, selector: string, asset: string, party: string,
                       amount: string)
    requires IsAddress(asset) && IsAddress(party) && (selector == TRANSFER || selector == APPROVE)
    requires BuildErc20(keccak, i, selector, asset, party, amount).Ok?
    ensures Regular(BuildErc20(keccak, i, selector, asset, party, amount).value.tx, asset)
  {
    hide IsAddress, AddressWord, BigIntOf, FitsUint256, TxRequestHash, Encodable, Call;
    AddressWordIsHex(party);
    CallIsHex(selector, [AddressWord(party), UintWord(BigIntOf(amount))]);
  }

  lemma SwapIsRegular(keccak: string -> string, i: Intent)
    requires WellFormed(i) && (i.action.SwapExactIn? || i.action.SwapExactOut?)
    requires BuildSwap(keccak, i).Ok?
    ensures Regular(BuildSwap(keccak, i).value.tx, i.action.router)
  {
    hide IsAddress, BigIntOf, FitsUint256, TxRequestHash, Encodable, Call, SwapWords, UniswapRouter, SameLetters;
    hide AllDigits;
    var a := i.action;
    assert IsAddress(TokenAddresses(a)[0]) && IsAddress(TokenAddresses(a)[1]);
    var first := BigIntOf(if a.SwapExactIn? then a.amountIn else a.amountOut);
    var second := BigIntOf(if a.SwapExactIn? then a.minAmountOut else a.maxAmountIn);
    SwapWordsAreHex(i, a.assetIn, a.assetOut, first, second);
    CallIsHex(EXACT_INPUT_SINGLE, SwapWords(i, a.assetIn, a.assetOut, first, second));
    CallIsHex(EXACT_OUTPUT_SINGLE, SwapWords(i, a.assetIn, a.assetOut, first, second));
  }

  lemma SwapWordsAreHex(i: Intent, assetIn: string, assetOut: string, first: nat, second: nat)
    requires IsAddress(i.wallet) && IsAddress(assetIn) && IsAddress(assetOut)
    requires FitsUint256(first) && FitsUint256(second)
    ensures forall w <- SwapWords(i, assetIn, assetOut, first, second) :: AllHex(w)
  {
    hide AddressWord, UintWord, IsAddress, FitsUint256, AllHex;
    SmallNumbersFit();
    AddressWordIsHex(assetIn);
    AddressWordIsHex(assetOut);
    AddressWordIsHex(i.wallet);
    UintWordIsHex(DEFAULT_FEE_TIER);
    UintWordIsHex(first);
    UintWordIsHex(second);
    UintWordIsHex(0);
  }

  /** What the program builds itself is regular. */
  lemma BuiltIsRegular(keccak: string -> string, i: Intent, client: Option<OneInchReply>)
    requires WellFormed(i) && !ViaOneInch(i, client) && BuildFromIntent(keccak, i, client).Ok?
    ensures Regular(BuildFromIntent(keccak, i, client).value.tx, Target(i.action))
  {
    hide BuildErc20, BuildSwap, IsAddress, AllDigits, BigIntOf, TxRequestHash, SameLetters;
    match i.action
    case Transfer(asset, to, amount) =>
      assert asset == TokenAddresses(i.action)[0];
      Erc20IsRegular(keccak, i, TRANSFER, asset, to, amount);
    case TransferNative(_, _) =>
    case Approve(asset, spender, amount) =>
      assert asset == TokenAddresses(i.action)[0];
      Erc20IsRegular(keccak, i, APPROVE, asset, spender, amount);
    case SwapExactIn(_, _, _, _, _, _) => SwapIsRegular(keccak, i);
    case SwapExactOut(_, _, _, _, _, _) => SwapIsRegular(keccak, i);
  }

  /** Whoever produced the plan, it carries the intent's id and chain and its own hash. */
  lemma PlanFields(keccak: string -> string, i: Intent, client: Option<OneInchReply>)
    requires WellFormed(i) && BuildFromIntent(keccak, i, client).Ok?
    ensures var plan := BuildFromIntent(keccak, i, client).value;
      plan.intentId == i.id && plan.tx.chainId == i.chainId &&
      plan.txRequestHash == TxRequestHash(keccak, plan.tx)
  {
    hide TxRequestHash, BigIntOf, SameLetters, IsAddress, AllDigits, FitsUint256;
    hide Call, SwapWords, AddressWord, UintWord, Encodable;
  }

  // ---- the aggregator ----

  /** Whatever recipient, data and value there are, some reply of the server makes a swap on its
      router exactly that transaction. */
  lemma ServerChoosesTheTransaction(keccak: string -> string, i: Intent, to: string, data: string, value: int)
    requires WellFormed(i) && NamesServer(i)
    ensures var client := Some(Reply(to, data, value));
      ViaOneInch(i, client) && BuildFromIntent(keccak, i, client).Ok? &&
      BuildFromIntent(keccak, i, client).value.tx == TxRequest(to, data, value, i.chainId)
  {
    hide OneInchRouter, SameLetters, TxRequestHash, IsAddress;
  }

  /** The documentation promises a silent fallback to Uniswap when 1inch fails.  The server is
      only asked when the intent names the 1inch router, and then the Uniswap builder refuses
      that router: after a failed call the build fails. */
  lemma FallbackNeverFollowsAFailedCall(keccak: string -> string, i: Intent)
    requires WellFormed(i) && NamesServer(i)
    ensures BuildFromIntent(keccak, i, Some(NoUsableReply)) == Err(UnknownRouter)
  {
    hide UniswapRouter, OneInchRouter, BigIntOf, Encodable;
    RoutersDiffer(i.chainId);
    assert !NamesRouter(i, UniswapRouter(i.chainId));
  }

  lemma OneInchDigit(chainId: nat)
    requires OneInchRouter(chainId).Some?
    ensures |OneInchRouter(chainId).value| > 2 && OneInchRouter(chainId).value[2] == '1'
  {
  }

  lemma UniswapDigit(chainId: nat)
    requires UniswapRouter(chainId).Some?
    ensures |UniswapRouter(chainId).value| > 2
    ensures UniswapRouter(chainId).value[2] == if chainId == 8453 then '2' else '6'
  {
  }

  lemma SameChains(chainId: nat)
    ensures OneInchRouter(chainId).Some? <==> UniswapRouter(chainId).Some?
  {
  }

  lemma RoutersDiffer(chainId: nat)
    requires OneInchRouter(chainId).Some?
    ensures UniswapRouter(chainId).Some?
    ensures !SameLetters(OneInchRouter(chainId).value, UniswapRouter(chainId).value)
  {
    hide OneInchRouter, UniswapRouter, SameLetters;
    SameChains(chainId);
    OneInchDigit(chainId);
    UniswapDigit(chainId);
    DifferentDigits(OneInchRouter(chainId).value, UniswapRouter(chainId).value, 2);
  }

  lemma DifferentDigits(s: string, t: string, k: nat)
    requires k < |s| && k < |t| && IsDigit(s[k]) && IsDigit(t[k]) && s[k] != t[k]
    ensures !SameLetters(s, t)
  {
    assert Lower(s)[k] == s[k] && Lower(t)[k] == t[k];
  }

  /** With a failing aggregator a 1inch swap is built exactly when the caller named the Uniswap
      router (and addresses and amounts encode), that is, when the server is never asked. */
  lemma FallbackWorksIff(keccak: string -> string, i: Intent)
    requires WellFormed(i) && i.action.SwapExactIn? && i.action.provider == OneInch
    ensures BuildFromIntent(keccak, i, Some(NoUsableReply)).Ok? <==>
      NamesRouter(i, UniswapRouter(i.chainId)) && AddressesEncode(keccak, i) && AmountsFit(i.action)
  {
    hide Encodable;
    BuildSucceedsIff(keccak, i, Some(NoUsableReply));
  }

  ghost predicate MeaningIsKept(keccak: string -> string, i: Intent, client: Option<OneInchReply>)
    requires WellFormed(i)
  {
    var plan := BuildFromIntent(keccak, i, client);
    plan.Ok? ==> Decode(plan.value.tx) == Some(Meaning(i))
  }

  /** The meaning of an intent is kept whatever the server does, exactly unless it is left to the
      server. */
  lemma MeaningIsKeptIff(keccak: string -> string, i: Intent)
    requires WellFormed(i)
    ensures (forall client :: MeaningIsKept(keccak, i, client)) <==> !NamesServer(i)
  {
    hide BuildFromIntent, NamesServer, Meaning, WellFormed;
    if NamesServer(i) {
      EmptyReply(keccak, i);
      assert !MeaningIsKept(keccak, i, Some(Reply("0x", "0x", 0)));
    } else {
      forall client ensures MeaningIsKept(keccak, i, client) {
        if BuildFromIntent(keccak, i, client).Ok? { BuildPreservesMeaning(keccak, i, client); }
      }
    }
  }

  /** An empty reply makes the swap a transfer of nothing. */
  lemma EmptyReply(keccak: string -> string, i: Intent)
    requires WellFormed(i) && NamesServer(i)
    ensures !MeaningIsKept(keccak, i, Some(Reply("0x", "0x", 0)))
  {
    hide BuildFromIntent, AddressValue, BigIntOf, IsAddress, AllDigits;
    ServerChoosesTheTransaction(keccak, i, "0x", "0x", 0);
  }

  /** A swap of five wei on the 1inch router. */
  function ServerSwap(): (i: Intent)
    ensures WellFormed(i) && NamesServer(i)
  {
    var zero := "0x" + Zeros(40);
    assert zero[2..] == Zeros(40);
    RouterIsAddress();
    var router := OneInchRouter(1).value;
    Intent("0b7c6a52-4e1f-4d7b-9a3c-5f2e8d1c6b90", 1, zero, SwapExactIn(router, OneInch, zero, zero, "5", "5"), 0)
  }

  /** The routers of the four chains. */
  lemma RouterTable(chainId: nat)
    ensures UniswapRouter(chainId) ==
      if chainId in [1, 10, 42161] then Some("0x68b3465833fb72A70ecDF485E0e4C7bD8665Fc45")
      else if chainId == 8453 then Some("0x2626664c2603336E57B271c5C0b26F421741e481")
      else None
    ensures OneInchRouter(chainId) ==
      if chainId in [1, 10, 42161, 8453] then Some("0x111111125421cA6dc452d289314280a0f8842A65") else None
  {
  }

  lemma RouterParts()
    ensures OneInchRouter(1).value == "0x" + ("111111125421cA6dc452" + "d289314280a0f8842A65")
  {
    assert "0x111111125421cA6dc452" == "0x" + "111111125421cA6dc452";
    assert "0x111111125421cA6dc452d289314280a0f8842A65" == "0x111111125421cA6dc452" + "d289314280a0f8842A65";
  }

  lemma RouterIsAddress()
    ensures IsAddress(OneInchRouter(1).value)
  {
    hide OneInchRouter, IsAddress;
    RouterParts();
    assert AllHex("111111125421cA6dc452") && AllHex("d289314280a0f8842A65");
    HexIsAddress("111111125421cA6dc452", "d289314280a0f8842A65");
  }

  lemma HexIsAddress(first: string, second: string)
    requires AllHex(first) && AllHex(second) && |first| + |second| == 40
    ensures IsAddress("0x" + (first + second))
  {
    assert ("0x" + (first + second))[2..] == first + second;
  }

  /** It loses its meaning to an empty reply, and has no fallback when the server fails. */
  lemma ServerSwapIsLost(keccak: string -> string)
    ensures BuildFromIntent(keccak, ServerSwap(), Some(NoUsableReply)) == Err(UnknownRouter)
    ensures !MeaningIsKept(keccak, ServerSwap(), Some(Reply("0x", "0x", 0)))
  {
    hide ServerSwap, WellFormed, NamesServer, BuildFromIntent, MeaningIsKept;
    FallbackNeverFollowsAFailedCall(keccak, ServerSwap());
    EmptyReply(keccak, ServerSwap());
  }

  // ---- the built transaction obeys the policy ----

  function EffectTokens(e: Effect): seq<nat> {
    match e
    case MoveToken(token, _, _) => [token]
    case MoveNative(_, _) => []
    case GrantAllowance(token, _, _) => [token]
    case SwapSpending(_, tokenIn, tokenOut, _, _, _, _, _) => [tokenIn, tokenOut]
    case SwapReceiving(_, tokenIn, tokenOut, _, _, _, _, _) => [tokenIn, tokenOut]
  }

  function EffectContract(e: Effect): Option<nat> {
    match e
    case GrantAllowance(_, spender, _) => Some(spender)
    case SwapSpending(router, _, _, _, _, _, _, _) => Some(router)
    case SwapReceiving(router, _, _, _, _, _, _, _) => Some(router)
    case _ => None
  }

  function EffectRecipient(e: Effect): Option<nat> {
    match e
    case MoveToken(_, to, _) => Some(to)
    case MoveNative(to, _) => Some(to)
    case _ => None
  }

  ghost predicate Permits(list: seq<string>, address: nat) {
    list == [] || exists k :: 0 <= k < |list| && AddressValue(list[k]) == address
  }

  ghost predicate WellFormedLists(c: PolicyConfig) {
    forall a :: a in c.tokenAllowlist || a in c.contractAllowlist || a in c.recipientAllowlist ==> IsAddress(a)
  }

  /** The configured limits, read off an on-chain effect. */
  ghost predicate Obeys(e: Effect, chainId: nat, c: PolicyConfig) {
    && chainId in c.allowedChains
    && (forall k :: 0 <= k < |EffectTokens(e)| ==> Permits(c.tokenAllowlist, EffectTokens(e)[k]))
    && (EffectContract(e).Some? ==> Permits(c.contractAllowlist, EffectContract(e).value))
    && (EffectRecipient(e).Some? ==> Permits(c.recipientAllowlist, EffectRecipient(e).value))
    && (BigIntOf(c.maxValueWei) > 0 ==> Spend(e) <= BigIntOf(c.maxValueWei))
    && (e.GrantAllowance? && BigIntOf(c.maxApprovalAmount) > 0 ==> e.amount <= BigIntOf(c.maxApprovalAmount))
  }

  /** A listed address is one of the accounts the list permits, and the other way round. */
  lemma RejectedIffForbidden(list: seq<string>, a: string)
    requires IsAddress(a) && forall x :: x in list ==> IsAddress(x)
    ensures Policy.ListRejects(list, a) <==> !Permits(list, AddressValue(a))
  {
    hide AddressValue, IsAddress, SameLetters;
    forall k | 0 <= k < |list| ensures AddressValue(list[k]) == AddressValue(a) <==> SameLetters(list[k], a) {
      AddressValueIffSameLetters(list[k], a);
    }
  }

  /** The verdict, read off what the intent does on chain: it is denied exactly when that is
      forbidden by the chains, lists or caps, or the rate is used up; otherwise approval is asked
      for exactly when the amount or the score is above its threshold. */
  lemma VerdictIsExact(i: Intent, c: PolicyConfig, o: Policy.Options)
    requires WellFormed(i) && WellFormedLists(c)
    ensures var forbidden := !Obeys(Meaning(i), i.chainId, c) ||
                             (o.recentTxCount.Some? && o.recentTxCount.value >= c.maxTxPerHour);
      var asked := Spend(Meaning(i)) > BigIntOf(c.requireApprovalAbove) ||
                   (o.riskScore.Some? && o.riskScore.value > c.maxRiskScore);
      Policy.Decide(i, c, o) ==
        if forbidden then Policy.Deny else if asked then Policy.RequireApproval else Policy.Allow
  {
    hide AddressValue, IsAddress, SameLetters, Policy.ListRejects, Permits, BigIntOf, AllDigits;
    var ts := TokenAddresses(i.action);
    assert |EffectTokens(Meaning(i))| == |ts|;
    forall k | 0 <= k < |ts|
      ensures Permits(c.tokenAllowlist, EffectTokens(Meaning(i))[k]) <==> !Policy.ListRejects(c.tokenAllowlist, ts[k]) {
      assert EffectTokens(Meaning(i))[k] == AddressValue(ts[k]);
      RejectedIffForbidden(c.tokenAllowlist, ts[k]);
    }
    if ContractAddress(i.action).Some? {
      AddressIsNotEmpty(ContractAddress(i.action).value);
      RejectedIffForbidden(c.contractAllowlist, ContractAddress(i.action).value);
    }
    if Recipient(i.action).Some? {
      RejectedIffForbidden(c.recipientAllowlist, Recipient(i.action).value);
    }
  }

  lemma MeaningObeys(i: Intent, c: PolicyConfig, o: Policy.Options)
    requires WellFormed(i) && WellFormedLists(c) && Policy.Decide(i, c, o) != Policy.Deny
    ensures Obeys(Meaning(i), i.chainId, c)
  {
    hide Obeys, Policy.Decide, Meaning, WellFormed, WellFormedLists;
    VerdictIsExact(i, c, o);
  }

  lemma AddressIsNotEmpty(a: string)
    requires IsAddress(a)
    ensures a != ""
  {
  }

  /** A transaction built for an intent the policy does not deny does, once decoded, nothing
      the configured chains, allowlists and caps forbid. */
  lemma BuiltTransactionObeysPolicy(keccak: string -> string, i: Intent, client: Option<OneInchReply>,
                                    c: PolicyConfig, o: Policy.Options)
    requires WellFormed(i) && WellFormedLists(c) && !ViaOneInch(i, client)
    requires BuildFromIntent(keccak, i, client).Ok? && Policy.Decide(i, c, o) != Policy.Deny
    ensures var tx := BuildFromIntent(keccak, i, client).value.tx;
      Decode(tx).Some? && Obeys(Decode(tx).value, tx.chainId, c)
  {
    hide BuildFromIntent, Obeys, Decode, Meaning, Policy.Decide, WellFormed, WellFormedLists;
    BuildPreservesMeaning(keccak, i, client);
    MeaningObeys(i, c, o);
  }
}
