/** Canonical JSON of flat objects (sections 3.2.2 and 3.2.3 of RFC 8785): member
    sorting, string escaping, and why the text determines the object. */
module CanonicalJson {
  import opened Types
  import opened Text

  datatype Scalar = Str(text: string) | Num(number: int)

  datatype Member = Member(key: string, value: Scalar)

  // ---- strings ----

  /** Quotation mark, backslash and the control characters are escaped; the rest is literal. */
  function Escape(c: char): (r: string)
    ensures r != "" && r[0] != '"'
  {
    if c == '"' then "\\\""
    else if c == '\\' then "\\\\"
    else if c == 8 as char then "\\b"
    else if c == 9 as char then "\\t"
    else if c == 10 as char then "\\n"
    else if c == 12 as char then "\\f"
    else if c == 13 as char then "\\r"
    else if c < ' ' then "\\u00" + [HexChar(c as int / 16), HexChar(c as int % 16)]
    else [c]
  }

  function Body(s: string): string {
    if s == "" then "" else Escape(s[0]) + Body(s[1..])
  }

  function Quote(s: string): string { "\"" + Body(s) + "\"" }

  /** A control character is escaped by its two hexadecimal digits. */
  lemma LongEscape(c: char)
    requires |Escape(c)| > 2
    ensures c < ' ' && Escape(c) == "\\u00" + [HexChar(c as int / 16), HexChar(c as int % 16)]
    ensures c as int == 16 * HexValue(Escape(c)[4]) + HexValue(Escape(c)[5]) && Escape(c)[1] == 'u' && |Escape(c)| == 6
  {
  }

  /** What a reader of JSON makes of an escape (section 7 of RFC 8259). */
  function Unescape(e: string): Option<char> {
    if |e| == 1 then if e[0] >= ' ' && e[0] != '"' && e[0] != '\\' then Some(e[0]) else None
    else if |e| == 2 && e[0] == '\\' then
      match e[1]
      case '"' => Some('"')
      case '\\' => Some('\\')
      case '/' => Some('/')
      case 'b' => Some(0x8 as char)
      case 'f' => Some(0xc as char)
      case 'n' => Some(0xa as char)
      case 'r' => Some(0xd as char)
      case 't' => Some(0x9 as char)
      case _ => None
    else if |e| == 6 && e[0] == '\\' && e[1] == 'u' && AllHex(e[2..]) then
      var n := ParseHex(e[2..]);
      if n < 0xd800 then Some(n as char) else None
    else None
  }

  /** An escape stands for its character, and is as short as RFC 8785 wants it: one character for
      what may stand for itself, two where there is a short form. */
  lemma UnescapeOfEscape(c: char)
    ensures Unescape(Escape(c)) == Some(c)
    ensures |Escape(c)| ==
      if c in ['"', '\\', 8 as char, 9 as char, 10 as char, 12 as char, 13 as char] then 2
      else if c < ' ' then 6
      else 1
  {
    if |Escape(c)| == 6 {
      var h, l := HexChar(c as int / 16), HexChar(c as int % 16);
      assert Escape(c)[2..] == "00" + [h, l];
      assert ("00" + [h, l])[..3] == "00" + [h] && ("00" + [h])[..2] == "00" && "00"[..1] == "0";
      assert ParseHex("0") == 0 && ParseHex("00") == 0 && ParseHex("00" + [h]) == HexValue(h);
      assert ParseHex("00" + [h, l]) == c as int;
    }
  }

  /** No escape is a prefix of another. */
  lemma EscapeIsPrefixFree(c: char, d: char, x: string, y: string)
    requires Escape(c) + x == Escape(d) + y
    ensures c == d && x == y
  {
    var u, v := Escape(c) + x, Escape(d) + y;
    assert u[0] == Escape(c)[0] && v[0] == Escape(d)[0];
    if |Escape(c)| > 1 && |Escape(d)| > 1 {
      assert u[1] == Escape(c)[1] && v[1] == Escape(d)[1];
      if |Escape(c)| > 2 && |Escape(d)| > 2 {
        hide Escape, HexValue, HexChar;
        LongEscape(c);
        LongEscape(d);
        assert u[4] == Escape(c)[4] && v[4] == Escape(d)[4] && u[5] == Escape(c)[5] && v[5] == Escape(d)[5];
      }
    }
    assert c == d;
    assert x == u[|Escape(c)|..] == v[|Escape(d)|..] == y;
  }

  /** A string body, its closing quotation mark and what follows. */
  function Closed(s: string, x: string): string { Body(s) + ("\"" + x) }

  lemma ClosedStart(s: string, x: string)
    ensures Closed(s, x) != "" && (Closed(s, x)[0] == '"' <==> s == "")
    ensures s == "" ==> Closed(s, x)[1..] == x
    ensures s != "" ==> Closed(s, x) == Escape(s[0]) + Closed(s[1..], x)
  {
    if s != "" {
      assert Closed(s, x)[0] == Escape(s[0])[0];
      assert Body(s) + ("\"" + x) == Escape(s[0]) + (Body(s[1..]) + ("\"" + x));
    }
  }

  lemma {:induction false} BodyIsPrefixFree(s: string, t: string, x: string, y: string)
    requires Closed(s, x) == Closed(t, y)
    ensures s == t && x == y
    decreases |s|
  {
    hide Closed, Escape;
    ClosedStart(s, x);
    ClosedStart(t, y);
    if s != "" {
      EscapeIsPrefixFree(s[0], t[0], Closed(s[1..], x), Closed(t[1..], y));
      BodyIsPrefixFree(s[1..], t[1..], x, y);
      assert s == [s[0]] + s[1..] && t == [t[0]] + t[1..];
    }
  }

  lemma QuoteIsPrefixFree(s: string, t: string, x: string, y: string)
    requires Quote(s) + x == Quote(t) + y
    ensures s == t && x == y
  {
    hide Body;
    assert Closed(s, x) == (Quote(s) + x)[1..] == (Quote(t) + y)[1..] == Closed(t, y);
    BodyIsPrefixFree(s, t, x, y);
  }

  // ---- values ----

  predicate Stops(x: string) {
    x != "" && (x[0] == ',' || x[0] == '}')
  }

  lemma {:induction false} NumberCharacters(n: int)
    ensures SignedDecimal(n) != ""
    ensures forall c <- SignedDecimal(n) :: IsDigit(c) || c == '-'
  {
  }

  /** A text without stop characters is not cut short by what follows it. */
  lemma StopComesAfter(a: string, b: string, x: string, y: string)
    requires a + x == b + y && Stops(x)
    requires forall c <- b :: IsDigit(c) || c == '-'
    ensures |b| <= |a|
  {
    forall k | 0 <= k < |b| ensures !Stops([(b + y)[k]]) {
      assert b[k] in b;
    }
    assert (a + x)[|a|] == x[0];
    assert Stops([x[0]]);
  }

  lemma NumberIsPrefixFree(m: int, n: int, x: string, y: string)
    requires SignedDecimal(m) + x == SignedDecimal(n) + y && Stops(x) && Stops(y)
    ensures m == n && x == y
  {
    hide SignedDecimal;
    var a, b := SignedDecimal(m), SignedDecimal(n);
    NumberCharacters(m);
    NumberCharacters(n);
    StopComesAfter(a, b, x, y);
    StopComesAfter(b, a, y, x);
    assert a == (a + x)[..|a|] == (b + y)[..|b|] == b;
    assert x == (a + x)[|a|..] == (b + y)[|b|..] == y;
    SignedDecimalInjective(m, n);
  }

  function Render(v: Scalar): string {
    match v
    case Str(t) => Quote(t)
    case Num(n) => SignedDecimal(n)
  }

  lemma RenderStart(v: Scalar, x: string)
    ensures Render(v) + x != "" && ((Render(v) + x)[0] == '"' <==> v.Str?)
  {
    if v.Num? {
      NumberCharacters(v.number);
      assert SignedDecimal(v.number)[0] in SignedDecimal(v.number);
    }
  }

  lemma RenderIsPrefixFree(v: Scalar, w: Scalar, x: string, y: string)
    requires Render(v) + x == Render(w) + y && Stops(x) && Stops(y)
    ensures v == w && x == y
  {
    hide Quote, SignedDecimal;
    RenderStart(v, x);
    RenderStart(w, y);
    if v.Str? {
      QuoteIsPrefixFree(v.text, w.text, x, y);
    } else {
      NumberIsPrefixFree(v.number, w.number, x, y);
    }
  }

  // ---- objects ----

  function RenderMember(m: Member): string { Quote(m.key) + ":" + Render(m.value) }

  function Tail(ms: seq<Member>): (r: string)
    ensures Stops(r)
  {
    if ms == [] then "}" else "," + RenderMember(ms[0]) + Tail(ms[1..])
  }

  /** The members in the given order. */
  function RenderObject(ms: seq<Member>): string {
    if ms == [] then "{}" else "{" + RenderMember(ms[0]) + Tail(ms[1..])
  }

  lemma MemberIsPrefixFree(m: Member, n: Member, x: string, y: string)
    requires RenderMember(m) + x == RenderMember(n) + y && Stops(x) && Stops(y)
    ensures m == n && x == y
  {
    hide Quote, Render;
    var u, v := ":" + (Render(m.value) + x), ":" + (Render(n.value) + y);
    assert RenderMember(m) + x == Quote(m.key) + u;
    assert RenderMember(n) + y == Quote(n.key) + v;
    QuoteIsPrefixFree(m.key, n.key, u, v);
    assert Render(m.value) + x == u[1..] && v[1..] == Render(n.value) + y;
    RenderIsPrefixFree(m.value, n.value, x, y);
  }

  lemma TailStart(ms: seq<Member>)
    ensures ms == [] <==> Tail(ms)[0] == '}'
    ensures ms != [] ==> Tail(ms)[1..] == RenderMember(ms[0]) + Tail(ms[1..])
  {
    hide RenderMember;
    if ms != [] { assert Tail(ms) == "," + (RenderMember(ms[0]) + Tail(ms[1..])); }
  }

  lemma {:induction false} TailInjective(ms: seq<Member>, ns: seq<Member>)
    requires Tail(ms) == Tail(ns)
    ensures ms == ns
    decreases |ms|
  {
    hide Tail, RenderMember, Stops;
    TailStart(ms);
    TailStart(ns);
    if ms != [] {
      MemberIsPrefixFree(ms[0], ns[0], Tail(ms[1..]), Tail(ns[1..]));
      TailInjective(ms[1..], ns[1..]);
      assert ms == [ms[0]] + ms[1..] && ns == [ns[0]] + ns[1..];
    }
  }

  lemma ObjectStart(ms: seq<Member>)
    ensures |RenderObject(ms)| >= 2 && (ms == [] <==> RenderObject(ms)[1] == '}')
    ensures ms != [] ==> RenderObject(ms)[1..] == RenderMember(ms[0]) + Tail(ms[1..])
  {
    hide Body, Render, Tail;
    if ms != [] {
      assert RenderObject(ms) == "{" + (RenderMember(ms[0]) + Tail(ms[1..]));
      assert RenderMember(ms[0])[0] == '"';
    }
  }

  lemma RenderObjectInjective(ms: seq<Member>, ns: seq<Member>)
    requires RenderObject(ms) == RenderObject(ns)
    ensures ms == ns
  {
    hide RenderObject, Tail, RenderMember, Stops;
    ObjectStart(ms);
    ObjectStart(ns);
    if ms != [] {
      MemberIsPrefixFree(ms[0], ns[0], Tail(ms[1..]), Tail(ns[1..]));
      TailInjective(ms[1..], ns[1..]);
      assert ms == [ms[0]] + ms[1..] && ns == [ns[0]] + ns[1..];
    }
  }

  // ---- member sorting ----

  predicate Before(s: string, t: string) {
    if t == "" then false
    else if s == "" then true
    else s[0] < t[0] || (s[0] == t[0] && Before(s[1..], t[1..]))
  }

  /** s is a proper prefix of t, or smaller at the first place where they differ. */
  ghost predicate SmallerAt(s: string, t: string, k: nat) {
    k <= |s| && k < |t| && s[..k] == t[..k] && (k == |s| || s[k] < t[k])
  }

  /** The order of code units, as section 3.2.3 of RFC 8785 wants it. */
  lemma {:induction false} BeforeIsLexicographic(s: string, t: string)
    ensures Before(s, t) <==> exists k: nat :: SmallerAt(s, t, k)
  {
    if s == "" || t == "" {
      assert s == "" && t != "" ==> SmallerAt(s, t, 0);
    } else {
      BeforeIsLexicographic(s[1..], t[1..]);
      if s[0] == t[0] {
        forall k: nat | k <= |s| - 1 && k < |t| - 1
          ensures SmallerAt(s[1..], t[1..], k) <==> SmallerAt(s, t, k + 1) {
          assert s[..k + 1] == [s[0]] + s[1..][..k] && t[..k + 1] == [t[0]] + t[1..][..k];
        }
        if k: nat :| SmallerAt(s, t, k) { assert k > 0 && SmallerAt(s[1..], t[1..], k - 1); }
      } else {
        if s[0] < t[0] { assert SmallerAt(s, t, 0); }
        if k: nat :| SmallerAt(s, t, k) { assert k == 0 || s[..k][0] == t[..k][0]; }
      }
    }
  }

  lemma {:induction false} BeforeIsTotal(s: string, t: string)
    ensures Before(s, t) || s == t || Before(t, s)
    ensures !(Before(s, t) && Before(t, s))
    decreases |s| + |t|
  {
    if s != "" && t != "" {
      BeforeIsTotal(s[1..], t[1..]);
      assert s == [s[0]] + s[1..] && t == [t[0]] + t[1..];
    }
  }

  lemma {:induction false} BeforeIsTransitive(s: string, t: string, u: string)
    requires Before(s, t) && Before(t, u)
    ensures Before(s, u)
  {
    if s != "" && s[0] == t[0] && t[0] == u[0] { BeforeIsTransitive(s[1..], t[1..], u[1..]); }
  }

  function Insert(m: Member, ms: seq<Member>): (r: seq<Member>)
    ensures multiset(r) == multiset(ms) + multiset{m}
  {
    if ms == [] then [m]
    else if Before(ms[0].key, m.key) then
      var r := [ms[0]] + Insert(m, ms[1..]);
      assert ms == [ms[0]] + ms[1..];
      r
    else [m] + ms
  }

  function Sort(ms: seq<Member>): (r: seq<Member>)
    ensures multiset(r) == multiset(ms)
  {
    if ms == [] then []
    else
      assert ms == [ms[0]] + ms[1..];
      Insert(ms[0], Sort(ms[1..]))
  }

  /** Keys strictly increasing, so also distinct. */
  ghost predicate Increasing(ms: seq<Member>) {
    forall i, j | 0 <= i < j < |ms| :: Before(ms[i].key, ms[j].key)
  }

  ghost predicate DistinctKeys(ms: seq<Member>) {
    forall i, j | 0 <= i < j < |ms| :: ms[i].key != ms[j].key
  }

  function Canonicalize(ms: seq<Member>): string { RenderObject(Sort(ms)) }

  lemma {:induction false} InsertKeepsIncreasing(m: Member, ms: seq<Member>)
    requires Increasing(ms) && forall k | 0 <= k < |ms| :: ms[k].key != m.key
    ensures Increasing(Insert(m, ms))
  {
    if ms != [] {
      BeforeIsTotal(ms[0].key, m.key);
      if Before(ms[0].key, m.key) {
        var rest := Insert(m, ms[1..]);
        InsertKeepsIncreasing(m, ms[1..]);
        forall j | 0 <= j < |rest| ensures Before(ms[0].key, rest[j].key) {
          assert rest[j] in multiset(rest);
          assert rest[j] == m || rest[j] in ms[1..];
        }
      } else {
        forall j | 0 <= j < |ms| ensures Before(m.key, ms[j].key) {
          if j > 0 { BeforeIsTransitive(m.key, ms[0].key, ms[j].key); }
        }
      }
    }
  }

  lemma {:induction false} SortIsIncreasing(ms: seq<Member>)
    requires DistinctKeys(ms)
    ensures Increasing(Sort(ms))
  {
    if ms != [] {
      var rest := Sort(ms[1..]);
      assert DistinctKeys(ms[1..]);
      SortIsIncreasing(ms[1..]);
      forall k | 0 <= k < |rest| ensures rest[k].key != ms[0].key {
        assert rest[k] in multiset(rest);
        assert rest[k] in ms[1..];
      }
      InsertKeepsIncreasing(ms[0], rest);
    }
  }

  lemma {:induction false} NeighboursIncrease(ms: seq<Member>)
    requires forall k | 0 <= k < |ms| - 1 :: Before(ms[k].key, ms[k + 1].key)
    ensures Increasing(ms)
  {
    if |ms| > 1 {
      NeighboursIncrease(ms[1..]);
      forall j | 0 < j < |ms| ensures Before(ms[0].key, ms[j].key) {
        if j > 1 {
          assert Before(ms[1..][0].key, ms[1..][j - 1].key);
          BeforeIsTransitive(ms[0].key, ms[1].key, ms[j].key);
        }
      }
      forall i, j | 0 < i < j < |ms| ensures Before(ms[i].key, ms[j].key) {
        assert Before(ms[1..][i - 1].key, ms[1..][j - 1].key);
      }
    }
  }

  /** Members in increasing order are what sorting them gives. */
  lemma SortedIsSort(ms: seq<Member>, sorted: seq<Member>)
    requires multiset(sorted) == multiset(ms) && DistinctKeys(ms)
    requires forall k | 0 <= k < |sorted| - 1 :: Before(sorted[k].key, sorted[k + 1].key)
    ensures Canonicalize(ms) == RenderObject(sorted)
  {
    NeighboursIncrease(sorted);
    SortIsIncreasing(ms);
    IncreasingIsUnique(Sort(ms), sorted);
  }

  predicate Plain(s: string) {
    forall k | 0 <= k < |s| :: s[k] >= ' ' && s[k] != '"' && s[k] != '\\'
  }

  lemma {:induction false} PlainBody(s: string)
    requires Plain(s)
    ensures Body(s) == s
  {
    if s != "" {
      PlainBody(s[1..]);
      assert Escape(s[0]) == [s[0]];
    }
  }

  /** The parts with commas between them. */
  function Commas(parts: seq<string>): string {
    if parts == [] then "" else if |parts| == 1 then parts[0] else parts[0] + ("," + Commas(parts[1..]))
  }

  /** A member with a string, or a number, whose key needs no escapes. */
  function StringField(key: string, text: string): string { "\"" + key + "\":\"" + text + "\"" }

  function NumberField(key: string, n: int): string { "\"" + key + "\":" + SignedDecimal(n) }

  lemma StringMember(key: string, text: string)
    requires Plain(key)
    ensures RenderMember(Member(key, Str(text))) == StringField(key, Body(text))
  {
    PlainBody(key);
  }

  lemma NumberMember(key: string, n: int)
    requires Plain(key)
    ensures RenderMember(Member(key, Num(n))) == NumberField(key, n)
  {
    hide SignedDecimal;
    PlainBody(key);
  }

  function Parts(ms: seq<Member>): seq<string> { seq(|ms|, k requires 0 <= k < |ms| => RenderMember(ms[k])) }

  lemma {:induction false} ObjectText(ms: seq<Member>)
    requires ms != []
    ensures RenderMember(ms[0]) + Tail(ms[1..]) == Commas(Parts(ms)) + "}"
    ensures RenderObject(ms) == "{" + Commas(Parts(ms)) + "}"
    decreases |ms|
  {
    hide RenderMember;
    assert Parts(ms)[1..] == Parts(ms[1..]);
    if |ms| > 1 {
      ObjectText(ms[1..]);
      assert Tail(ms[1..]) == "," + (RenderMember(ms[1]) + Tail(ms[2..]));
      assert ms[1..][1..] == ms[2..];
    } else {
      assert Tail(ms[1..]) == "}";
    }
    assert RenderObject(ms) == "{" + (RenderMember(ms[0]) + Tail(ms[1..]));
  }

  lemma {:induction false} IncreasingIsUnique(ms: seq<Member>, ns: seq<Member>)
    requires Increasing(ms) && Increasing(ns) && multiset(ms) == multiset(ns)
    ensures ms == ns
  {
    assert |ms| == |multiset(ms)| == |multiset(ns)| == |ns|;
    if ms != [] {
      FirstIsSmallest(ms, ns);
      assert ms == [ms[0]] + ms[1..] && ns == [ns[0]] + ns[1..];
      assert multiset(ms[1..]) == multiset(ms) - multiset{ms[0]};
      assert multiset(ns[1..]) == multiset(ns) - multiset{ns[0]};
      IncreasingIsUnique(ms[1..], ns[1..]);
    }
  }

  lemma FirstIsSmallest(ms: seq<Member>, ns: seq<Member>)
    requires Increasing(ms) && Increasing(ns) && multiset(ms) == multiset(ns) && ms != [] && ns != []
    ensures ms[0] == ns[0]
  {
    assert ms[0] in multiset(ns) && ns[0] in multiset(ms);
    var i :| 0 <= i < |ns| && ns[i] == ms[0];
    var j :| 0 <= j < |ms| && ms[j] == ns[0];
    BeforeIsTotal(ms[0].key, ns[0].key);
  }

  /** The canonical text determines the members and depends on nothing else: two objects
      with distinct keys have the same canonical form exactly when they have the same members. */
  lemma CanonicalFormIsExact(ms: seq<Member>, ns: seq<Member>)
    requires DistinctKeys(ms) && DistinctKeys(ns)
    ensures Canonicalize(ms) == Canonicalize(ns) <==> multiset(ms) == multiset(ns)
  {
    if Canonicalize(ms) == Canonicalize(ns) {
      RenderObjectInjective(Sort(ms), Sort(ns));
    }
    if multiset(ms) == multiset(ns) {
      SortIsIncreasing(ms);
      SortIsIncreasing(ns);
      IncreasingIsUnique(Sort(ms), Sort(ns));
    }
  }
}
