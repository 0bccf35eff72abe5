/** How a replica label is read: `trim`, `Number.parseInt(_, 10)` and the canonical form both must agree on. */
module ReplicaLabels {
  import opened Basics
  import opened Decimal

  /** White space and line terminators of ECMAScript. */
  predicate IsSpace(c: char) {
    || '\t' <= c <= '\r' || c == ' ' || c == '\U{00A0}' || c == '\U{1680}' || '\U{2000}' <= c <= '\U{200A}'
    || c == '\U{2028}' || c == '\U{2029}' || c == '\U{202F}' || c == '\U{205F}' || c == '\U{3000}' || c == '\U{FEFF}'
  }

  function TrimStart(s: string): (r: string)
    ensures r != "" ==> !IsSpace(r[0])
  {
    if s != "" && IsSpace(s[0]) then TrimStart(s[1..]) else s
  }

  function TrimEnd(s: string): string {
    if s != "" && IsSpace(s[|s| - 1]) then TrimEnd(s[..|s| - 1]) else s
  }

  function Trim(s: string): string {
    TrimEnd(TrimStart(s))
  }

  /** `Number.parseInt(s, 10)` over exact integers; `None` is NaN. */
  function ParseInt(s: string): Option<int> {
    var t := TrimStart(s);
    var signed := t != "" && (t[0] == '-' || t[0] == '+');
    var digits := DigitPrefix(if signed then t[1..] else t);
    if digits == "" then None
    else
      var magnitude: int := Value(digits);
      Some(if signed && t[0] == '-' then -magnitude else magnitude)
  }

  /** The check every replica label goes through. */
  predicate Accepted(raw: string) {
    var parsed := ParseInt(raw);
    parsed.Some? && parsed.value >= 1 && Print(parsed.value) == Trim(raw)
  }

  lemma {:induction false} TrimEndSplits(s: string)
    ensures |TrimEnd(s)| <= |s| && s[..|TrimEnd(s)|] == TrimEnd(s)
    ensures forall i :: |TrimEnd(s)| <= i < |s| ==> IsSpace(s[i])
  {
    if s != "" && IsSpace(s[|s| - 1]) {
      TrimEndSplits(s[..|s| - 1]);
    }
  }

  /** A label is accepted as `n` exactly when, trimmed, it is the canonical numeral of `n`. */
  lemma AcceptedIff(raw: string, n: int)
    requires n >= 1
    ensures Accepted(raw) && ParseInt(raw) == Some(n) <==> Trim(raw) == Print(n)
  {
    if Trim(raw) == Print(n) {
      var t := TrimStart(raw);
      TrimEndSplits(t);
      var rest := t[|Print(n)|..];
      assert t == Print(n) + rest;
      assert rest == "" || IsSpace(rest[0]);
      DigitsUntil(Print(n), rest);
      assert t[0] == Print(n)[0];
      ReadPrinted(n);
    }
  }
}
