/** Decimal rendering of integers, as Python's `str` and f-strings produce it. */
module Decimal {

  predicate IsDigit(c: char) {
    '0' <= c <= '9'
  }

  function Digit(n: nat): (c: char)
    requires n < 10
    ensures IsDigit(c)
  {
    ('0' as int + n) as char
  }

  function Render(n: nat): (s: string)
    ensures s != [] && forall i :: 0 <= i < |s| ==> IsDigit(s[i])
  {
    if n < 10 then [Digit(n)] else Render(n / 10) + [Digit(n % 10)]
  }

  /** The number a digit string denotes: the reader that undoes `Render`. */
  function Parse(s: string): (n: nat)
    requires forall i :: 0 <= i < |s| ==> IsDigit(s[i])
  {
    if s == [] then 0
    else
      var last := s[|s| - 1];
      assert IsDigit(last);
      10 * Parse(s[..|s| - 1]) + (last as int - '0' as int)
  }

  lemma {:induction false} ParseRender(n: nat)
    ensures Parse(Render(n)) == n
  {
    if n < 10 {
      assert Parse([Digit(n)][..0]) == 0;
    } else {
      ParseRender(n / 10);
      var s := Render(n);
      assert s[..|s| - 1] == Render(n / 10);
    }
  }

  lemma RenderInjective(m: nat, n: nat)
    requires Render(m) == Render(n)
    ensures m == n
  {
    ParseRender(m);
    ParseRender(n);
  }
}

/** The idempotency keys under which the Manager files its operations. */
module OperationKeys {
  import Decimal

  function CheckpointKey(workspaceId: string, generation: nat): string {
    "checkpoint:" + workspaceId + ":" + Decimal.Render(generation)
  }

  function RestoreKey(workspaceId: string, revision: string): string {
    "restore:" + workspaceId + ":" + revision
  }

  function RetireKey(workspaceId: string): string {
    "retire:" + workspaceId
  }

  function CheckoutKey(value: string): string {
    "artifact_checkout:" + value
  }

  function PublishKey(value: string): string {
    "artifact_publish:" + value
  }

  /** A colon-free suffix longer than another one cannot follow the same last colon. */
  lemma LongerSuffixDiffers(a: string, d: string, b: string, e: string)
    requires ':' !in e && |d| < |e|
    ensures a + ":" + d != b + ":" + e
  {
    if |a| + |d| == |b| + |e| {
      assert (a + ":" + d)[|a|] == ':';
      assert (b + ":" + e)[|a|] == e[|a| - |b| - 1];
    }
  }

  /** The suffix after the last colon is determined when neither suffix holds a colon. */
  lemma LastColonSplits(a: string, d: string, b: string, e: string)
    requires a + ":" + d == b + ":" + e
    requires ':' !in d && ':' !in e
    ensures a == b && d == e
  {
    var s := a + ":" + d;
    assert |d| == |e| by {
      if |d| < |e| { LongerSuffixDiffers(a, d, b, e); }
      if |e| < |d| { LongerSuffixDiffers(b, e, a, d); }
    }
    assert a == s[..|a|] == b;
    assert d == s[|a| + 1..] == e;
  }

  /** Workspace ids may hold colons, yet one key never names two (workspace, generation) pairs. */
  lemma CheckpointKeyInjective(w: string, g: nat, w': string, g': nat)
    requires CheckpointKey(w, g) == CheckpointKey(w', g')
    ensures w == w' && g == g'
  {
    var p := "checkpoint:";
    var d, e := Decimal.Render(g), Decimal.Render(g');
    assert CheckpointKey(w, g)[|p|..] == w + ":" + d;
    assert CheckpointKey(w', g')[|p|..] == w' + ":" + e;
    assert !Decimal.IsDigit(':');
    LastColonSplits(w, d, w', e);
    Decimal.RenderInjective(g, g');
  }

  /** Checkpoint keys start with a letter that no other kind of key starts with. */
  lemma CheckpointKeyDistinct(w: string, g: nat, w': string, r: string)
    ensures CheckpointKey(w, g) != RestoreKey(w', r)
    ensures CheckpointKey(w, g) != RetireKey(w')
    ensures CheckpointKey(w, g) != CheckoutKey(r)
    ensures CheckpointKey(w, g) != PublishKey(r)
  {
    assert CheckpointKey(w, g)[0] == 'c';
    assert RestoreKey(w', r)[0] == 'r' && RetireKey(w')[0] == 'r';
    assert CheckoutKey(r)[0] == 'a' && PublishKey(r)[0] == 'a';
  }
}
