/**
 The text `_hash_request` feeds to SHA-256. The digest itself is taken to be
 injective, so a request hash is modelled by that text.
 */
module RequestHash {
  import opened Wrappers

  function Digit(d: nat): char
    requires d < 10
  {
    (d + 48) as char
  }

  /** Row identifiers and times as text; an identifier contains no bar. */
  function Decimal(n: nat): (s: string)
    ensures s != ""
  {
    if n < 10 then [Digit(n)] else Decimal(n / 10) + [Digit(n % 10)]
  }

  /** Python's `str(time_taken)`. */
  function TimeText(timeTaken: Option<nat>): string {
    match timeTaken
    case None => "None"
    case Some(n) => Decimal(n)
  }

  function HashText(text: string, question: nat, timeTaken: Option<nat>): string {
    Decimal(question) + "|" + text + "|" + TimeText(timeTaken)
  }

  /** `_hash_request`, one `update` at a time. */
  method HashRequest(text: string, question: nat, timeTaken: Option<nat>) returns (h: string)
    ensures h == HashText(text, question, timeTaken)
  {
    h := "";
    h := h + Decimal(question);
    h := h + "|";
    h := h + text;
    h := h + "|";
    h := h + TimeText(timeTaken);
  }

  lemma {:induction false} DecimalDigits(n: nat)
    ensures forall c | c in Decimal(n) :: '0' <= c <= '9'
  {
    if n >= 10 {
      DecimalDigits(n / 10);
    }
  }

  lemma {:induction false} DecimalIsInjective(m: nat, n: nat)
    requires Decimal(m) == Decimal(n)
    ensures m == n
  {
    var s := Decimal(m);
    assert s[|s| - 1] == Digit(m % 10) == Digit(n % 10);
    if m >= 10 && n >= 10 {
      assert s[..|s| - 1] == Decimal(m / 10) == Decimal(n / 10);
      DecimalIsInjective(m / 10, n / 10);
    }
  }

  lemma TimeTextIsInjective(s: Option<nat>, t: Option<nat>)
    requires TimeText(s) == TimeText(t)
    ensures s == t
  {
    if s.Some? { DecimalDigits(s.value); }
    if t.Some? { DecimalDigits(t.value); }
    assert 'N' in "None";
    if s.Some? && t.Some? {
      DecimalIsInjective(s.value, t.value);
    }
  }

  lemma TimeTextHasNoBar(t: Option<nat>)
    ensures '|' !in TimeText(t)
  {
    if t.Some? { DecimalDigits(t.value); }
  }

  /** A bar-free prefix before a bar is determined by the whole text. */
  lemma PrefixIsDetermined(a: string, b: string, s: string, t: string)
    requires '|' !in a && '|' !in b
    requires a + "|" + s == b + "|" + t
    ensures a == b && s == t
  {
    var w := a + "|" + s;
    assert w[|a|] == '|' && w[|b|] == '|';
    assert forall i | 0 <= i < |a| :: w[i] == a[i] != '|';
    assert forall i | 0 <= i < |b| :: w[i] == b[i] != '|';
    assert a == w[..|a|] && b == w[..|b|];
    assert s == w[|a| + 1..] && t == w[|b| + 1..];
  }

  /** A bar-free suffix after a bar is determined by the whole text. */
  lemma SuffixIsDetermined(a: string, b: string, s: string, t: string)
    requires '|' !in s && '|' !in t
    requires a + "|" + s == b + "|" + t
    ensures a == b && s == t
  {
    var w := a + "|" + s;
    assert w[|a|] == '|' && w[|b|] == '|';
    assert forall i | |a| < i < |w| :: w[i] == s[i - |a| - 1] != '|';
    assert forall i | |b| < i < |w| :: w[i] == t[i - |b| - 1] != '|';
    assert a == w[..|a|] && b == w[..|b|];
    assert s == w[|a| + 1..] && t == w[|b| + 1..];
  }

  lemma HashTextShape(x: string, p: nat, s: Option<nat>)
    ensures HashText(x, p, s) == Decimal(p) + "|" + (x + "|" + TimeText(s))
  {
  }

  /** Two submissions have the same request hash exactly when they are the same submission. */
  lemma HashDeterminesRequest(x: string, p: nat, s: Option<nat>, y: string, q: nat, t: Option<nat>)
    ensures HashText(x, p, s) == HashText(y, q, t) <==> x == y && p == q && s == t
  {
    if HashText(x, p, s) == HashText(y, q, t) {
      DecimalDigits(p);
      DecimalDigits(q);
      TimeTextHasNoBar(s);
      TimeTextHasNoBar(t);
      HashTextShape(x, p, s);
      HashTextShape(y, q, t);
      PrefixIsDetermined(Decimal(p), Decimal(q), x + "|" + TimeText(s), y + "|" + TimeText(t));
      SuffixIsDetermined(x, y, TimeText(s), TimeText(t));
      DecimalIsInjective(p, q);
      TimeTextIsInjective(s, t);
    }
  }
}
