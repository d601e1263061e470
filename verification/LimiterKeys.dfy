/** The key names shared by the limiter script and its Go wrapper. */
module LimiterKeys {

  datatype Client = Client(chain: nat, apiKey: string)

  function Digit(d: nat): char
    requires d < 10
  {
    "0123456789"[d]
  }

  /** Decimal rendering, as Go's %d and Lua's concatenation of an integer argument. */
  function Decimal(n: nat): (s: string)
    ensures |s| >= 1
    ensures ':' !in s
  {
    if n < 10 then [Digit(n)] else Decimal(n / 10) + [Digit(n % 10)]
  }

  /** The api key is wrapped as a Redis hash tag before it reaches the script. */
  function HashTag(apiKey: string): string {
    "{" + apiKey + "}"
  }

  function SecQuotaKey(c: Client): string {
    "q:s:" + (Decimal(c.chain) + ":" + HashTag(c.apiKey))
  }

  function DayQuotaKey(c: Client): string {
    "q:d:" + (Decimal(c.chain) + ":" + HashTag(c.apiKey))
  }

  function SecKey(c: Client): string {
    "s:" + (Decimal(c.chain) + ":" + HashTag(c.apiKey))
  }

  function DayKey(c: Client, day: nat): string {
    "d:" + (Decimal(c.chain) + ":" + (HashTag(c.apiKey) + ":" + Decimal(day)))
  }

  /** The name the whitelist path formats with "d:%d:{%s}:%d". */
  function WhitelistKey(chain: nat, apiKey: string, day: nat): string {
    "d:" + Decimal(chain) + ":{" + apiKey + "}:" + Decimal(day)
  }

  lemma DigitInjective(a: nat, b: nat)
    requires a < 10 && b < 10 && Digit(a) == Digit(b)
    ensures a == b
  {
  }

  lemma {:induction false} DecimalInjective(a: nat, b: nat)
    requires Decimal(a) == Decimal(b)
    ensures a == b
  {
    var s, t := Decimal(a), Decimal(b);
    assert (a >= 10 ==> |s| >= 2) && (b >= 10 ==> |t| >= 2);
    if a < 10 && b < 10 {
      assert s[0] == t[0];
      DigitInjective(a, b);
    } else if a >= 10 && b >= 10 {
      assert s[|s| - 1] == Digit(a % 10) && t[|t| - 1] == Digit(b % 10);
      DigitInjective(a % 10, b % 10);
      assert s[..|s| - 1] == Decimal(a / 10) && t[..|t| - 1] == Decimal(b / 10);
      DecimalInjective(a / 10, b / 10);
    }
  }

  // ---- Rendering and parsing ----

  predicate IsDigit(c: char) {
    '0' <= c <= '9'
  }

  /** A decimal numeral without superfluous leading zeros. */
  predicate Numeral(text: string) {
    text != "" && (forall c | c in text :: IsDigit(c)) && (|text| > 1 ==> text[0] != '0')
  }

  function DigitValue(c: char): (d: nat)
    ensures d < 10
  {
    if IsDigit(c) then c as int - '0' as int else 0
  }

  /** The number a string of digits stands for. */
  function Parse(text: string): nat {
    if text == "" then 0 else 10 * Parse(text[..|text| - 1]) + DigitValue(text[|text| - 1])
  }

  lemma DigitOf(c: char)
    requires IsDigit(c)
    ensures Digit(DigitValue(c)) == c
  {
    assert forall i: nat | i < 10 :: "0123456789"[i] as int == i + '0' as int;
  }

  lemma OneMoreDigit(p: nat, d: nat)
    requires p > 0 && d < 10
    ensures Decimal(10 * p + d) == Decimal(p) + [Digit(d)]
  {
    assert (10 * p + d) / 10 == p && (10 * p + d) % 10 == d;
  }

  /** A numeral is the rendering of the number it stands for ... */
  lemma {:induction false} DecimalParses(text: string)
    requires Numeral(text)
    ensures Decimal(Parse(text)) == text
    ensures text[0] != '0' ==> Parse(text) > 0
  {
    var init, last := text[..|text| - 1], text[|text| - 1];
    assert last in text && text == init + [last];
    DigitOf(last);
    if init == "" {
      assert Parse(text) == DigitValue(last) && text == [last];
    } else {
      assert forall c | c in init :: c in text;
      assert init[0] == text[0];
      DecimalParses(init);
      OneMoreDigit(Parse(init), DigitValue(last));
    }
  }

  /** ... and every rendering is a numeral that stands for its number. */
  lemma {:induction false} ParsesBack(n: nat)
    ensures Numeral(Decimal(n)) && Parse(Decimal(n)) == n
    ensures Decimal(n)[0] == '0' ==> n == 0
  {
    if n >= 10 {
      ParsesBack(n / 10);
      var init, s := Decimal(n / 10), Decimal(n);
      assert s[..|s| - 1] == init;
    }
  }

  // ---- Key names ----

  /** A colon-free field is recovered from in front of the first colon ... */
  lemma SplitFirst(a: string, x: string, b: string, y: string)
    requires ':' !in a && ':' !in b
    requires a + ":" + x == b + ":" + y
    ensures a == b && x == y
  {
    var s := a + ":" + x;
    assert s[|a|] == ':' && s[|b|] == ':';
    assert forall i | 0 <= i < |a| :: s[i] == a[i];
    assert forall i | 0 <= i < |b| :: s[i] == b[i];
    assert |a| == |b|;
    assert a == s[..|a|] && b == s[..|b|];
    assert x == s[|a| + 1..] && y == s[|b| + 1..];
  }

  /** ... and from behind the last one. */
  lemma SplitLast(x: string, a: string, y: string, b: string)
    requires ':' !in a && ':' !in b
    requires x + ":" + a == y + ":" + b
    ensures x == y && a == b
  {
    var s := x + ":" + a;
    assert s[|x|] == ':' && s[|y|] == ':';
    assert forall i | |x| < i < |s| :: s[i] == a[i - |x| - 1];
    assert forall i | |y| < i < |s| :: s[i] == b[i - |y| - 1];
    assert |x| == |y|;
    assert x == s[..|x|] && y == s[..|y|];
    assert a == s[|x| + 1..] && b == s[|y| + 1..];
  }

  lemma ClientFieldInjective(c: Client, d: Client)
    requires Decimal(c.chain) + ":" + HashTag(c.apiKey) == Decimal(d.chain) + ":" + HashTag(d.apiKey)
    ensures c == d
  {
    SplitFirst(Decimal(c.chain), HashTag(c.apiKey), Decimal(d.chain), HashTag(d.apiKey));
    DecimalInjective(c.chain, d.chain);
    HashTagInjective(c.apiKey, d.apiKey);
  }

  lemma HashTagInjective(a: string, b: string)
    requires HashTag(a) == HashTag(b)
    ensures a == b
  {
    assert a == HashTag(a)[1..|a| + 1] && b == HashTag(b)[1..|b| + 1];
  }

  /** Whatever colons and braces an api key contains, no two clients share a key of any family. */
  lemma KeysInjective(c: Client, d: Client, i: nat, j: nat)
    ensures SecQuotaKey(c) == SecQuotaKey(d) ==> c == d
    ensures DayQuotaKey(c) == DayQuotaKey(d) ==> c == d
    ensures SecKey(c) == SecKey(d) ==> c == d
    ensures DayKey(c, i) == DayKey(d, j) ==> c == d && i == j
  {
    var x, y := Decimal(c.chain) + ":" + HashTag(c.apiKey), Decimal(d.chain) + ":" + HashTag(d.apiKey);
    assert SecQuotaKey(c)[4..] == x && SecQuotaKey(d)[4..] == y;
    assert DayQuotaKey(c)[4..] == x && DayQuotaKey(d)[4..] == y;
    assert SecKey(c)[2..] == x && SecKey(d)[2..] == y;
    if x == y {
      ClientFieldInjective(c, d);
    }
    if DayKey(c, i) == DayKey(d, j) {
      var p, q := HashTag(c.apiKey) + ":" + Decimal(i), HashTag(d.apiKey) + ":" + Decimal(j);
      assert DayKey(c, i)[2..] == Decimal(c.chain) + ":" + p;
      assert DayKey(d, j)[2..] == Decimal(d.chain) + ":" + q;
      SplitFirst(Decimal(c.chain), p, Decimal(d.chain), q);
      DecimalInjective(c.chain, d.chain);
      SplitLast(HashTag(c.apiKey), Decimal(i), HashTag(d.apiKey), Decimal(j));
      HashTagInjective(c.apiKey, d.apiKey);
      DecimalInjective(i, j);
    }
  }

  /** The four families never meet. */
  lemma FamiliesDisjoint(c: Client, d: Client, i: nat)
    ensures SecQuotaKey(c) != DayQuotaKey(d)
    ensures SecQuotaKey(c) != SecKey(d) && SecQuotaKey(c) != DayKey(d, i)
    ensures DayQuotaKey(c) != SecKey(d) && DayQuotaKey(c) != DayKey(d, i)
    ensures SecKey(c) != DayKey(d, i)
  {
    assert SecQuotaKey(c)[0] == 'q' && SecQuotaKey(c)[2] == 's';
    assert DayQuotaKey(d)[0] == 'q' && DayQuotaKey(d)[2] == 'd';
    assert DayQuotaKey(c)[0] == 'q';
    assert SecKey(c)[0] == 's' && SecKey(d)[0] == 's' && DayKey(d, i)[0] == 'd';
  }

  /** The Go whitelist path counts on exactly the key of the script. */
  lemma WhitelistKeyIsDayKey(c: Client, day: nat)
    ensures WhitelistKey(c.chain, c.apiKey, day) == DayKey(c, day)
  {
  }
}
