/** The score of one term in one chunk (the SUM of internal/store/store.go), with any logarithm. */
module Bm25Score {

  const K1 := 1.2
  const B := 0.75

  /** The argument of ln: 1 + (N - df + 0.5) / (df + 0.5). */
  function IdfArgument(n: real, df: int): real
    requires df > 0
  {
    1.0 + (n - df as real + 0.5) / (df as real + 0.5)
  }

  lemma QuotientNonNegative(a: real, b: real)
    requires a >= 0.0 && b > 0.0
    ensures a / b >= 0.0
  {
  }

  /** tf + k1 * (1 - b + b * |D| / avgdl). */
  function Saturation(tf: nat, len: nat, avgdl: real): (d: real)
    requires tf > 0 && avgdl > 0.0
    ensures d > 0.0
  {
    QuotientNonNegative(B * len as real, avgdl);
    tf as real + K1 * (1.0 - B + B * len as real / avgdl)
  }

  function Contribution(ln: real -> real, n: real, avgdl: real, df: int, tf: nat, len: nat): real
    requires df > 0 && tf > 0 && avgdl > 0.0
  {
    ln(IdfArgument(n, df)) * (tf as real * (K1 + 1.0)) / Saturation(tf, len, avgdl)
  }

  /** BM25 with k1 = 1.2 and b = 0.75 as the textbook has it, over a chunk `rel` times as long as the average. */
  function Textbook(ln: real -> real, n: nat, df: nat, tf: nat, rel: real): real
    requires tf > 0 && rel >= 0.0
  {
    ln((n + 1) as real / (df as real + 0.5)) * (2.2 * tf as real / (tf as real + 0.3 + 0.9 * rel))
  }

  lemma PositiveQuotient(a: real, b: real)
    requires a > 0.0 && b > 0.0
    ensures a / b > 0.0
  {
  }

  lemma PositiveProduct(a: real, b: real)
    requires a > 0.0 && b > 0.0
    ensures a * b > 0.0
  {
  }

  lemma Cancels(a: real, b: real)
    requires b > 0.0 && a * b == 0.0
    ensures a == 0.0
  {
    if a > 0.0 {
      PositiveProduct(a, b);
    } else if a < 0.0 {
      PositiveProduct(-a, b);
    }
  }

  lemma OnePlus(a: real, b: real)
    requires b > 0.0
    ensures 1.0 + a / b == (b + a) / b
  {
    var x, y := a / b, (b + a) / b;
    assert x * b == a && y * b == b + a;
    assert (y - x - 1.0) * b == 0.0;
    Cancels(y - x - 1.0, b);
  }

  lemma IdfIs(n: nat, df: nat)
    requires df > 0
    ensures IdfArgument(n as real, df) == (n + 1) as real / (df as real + 0.5)
  {
    OnePlus(n as real - df as real + 0.5, df as real + 0.5);
    assert df as real + 0.5 + (n as real - df as real + 0.5) == (n + 1) as real;
  }

  lemma TimesQuotient(a: real, b: real, c: real)
    requires c > 0.0
    ensures a * b / c == a * (b / c)
  {
  }

  lemma SaturationIs(tf: nat, len: nat, avgdl: real)
    requires tf > 0 && avgdl > 0.0
    ensures Saturation(tf, len, avgdl) == tf as real + 0.3 + 0.9 * (len as real / avgdl)
  {
    TimesQuotient(B, len as real, avgdl);
  }

  /** The expression of the query is the textbook's. */
  lemma ContributionIsTextbook(ln: real -> real, n: nat, avgdl: real, df: nat, tf: nat, len: nat)
    requires df > 0 && tf > 0 && avgdl > 0.0 && len as real / avgdl >= 0.0
    ensures Contribution(ln, n as real, avgdl, df, tf, len) == Textbook(ln, n, df, tf, len as real / avgdl)
  {
    IdfIs(n, df);
    SaturationIs(tf, len, avgdl);
    TimesQuotient(ln(IdfArgument(n as real, df)), tf as real * (K1 + 1.0), Saturation(tf, len, avgdl));
  }

  /** With 1 <= df <= N every logarithm is taken above 1. */
  lemma IdfAboveOne(n: int, df: int)
    requires 1 <= df <= n
    ensures IdfArgument(n as real, df) > 1.0
  {
    PositiveQuotient(n as real - df as real + 0.5, df as real + 0.5);
  }

  predicate AboveOne(x: real) { x > 1.0 }

  ghost predicate PositiveAboveOne(ln: real -> real) { forall x: real :: AboveOne(x) ==> ln(x) > 0.0 }

  ghost predicate RisingAboveOne(ln: real -> real) {
    forall x: real, y: real :: AboveOne(x) && AboveOne(y) && x < y ==> ln(x) < ln(y)
  }

  lemma TextbookPositive(ln: real -> real, n: nat, df: nat, tf: nat, rel: real)
    requires 1 <= df <= n && tf > 0 && rel >= 0.0 && PositiveAboveOne(ln)
    ensures Textbook(ln, n, df, tf, rel) > 0.0
  {
    IdfAboveOne(n, df);
    IdfIs(n, df);
    assert AboveOne((n + 1) as real / (df as real + 0.5));
    PositiveQuotient(2.2 * tf as real, tf as real + 0.3 + 0.9 * rel);
    PositiveProduct(ln((n + 1) as real / (df as real + 0.5)), 2.2 * tf as real / (tf as real + 0.3 + 0.9 * rel));
  }

  // ---------------------------------------------------------------- what the score rewards

  lemma ProductOrder(x: real, y: real, c: real)
    requires x <= y && c > 0.0
    ensures x * c <= y * c && (x < y ==> x * c < y * c)
  {
    assert (y - x) * c == y * c - x * c;
    if x < y {
      PositiveProduct(y - x, c);
    }
  }

  lemma QuotientOrder(a: real, b: real, c: real, d: real)
    requires b > 0.0 && d > 0.0 && a * d < c * b
    ensures a / b < c / d
  {
    var x, y := a / b, c / d;
    assert x * b == a && y * d == c;
    assert x * (b * d) == a * d && y * (b * d) == c * b;
    PositiveProduct(b, d);
    if x >= y {
      ProductOrder(y, x, b * d);
    }
  }

  /** The odds, smoothed, that a chunk does not hold the term. */
  lemma IdfEquation(n: nat, df: nat)
    requires df > 0
    ensures (IdfArgument(n as real, df) - 1.0) * (df as real + 0.5) == n as real - df as real + 0.5
  {
  }

  lemma CommonerIdf(n: nat, df: nat, more: nat)
    requires 0 < df < more
    ensures IdfArgument(n as real, more) < IdfArgument(n as real, df)
  {
    IdfIs(n, df);
    IdfIs(n, more);
    ProductOrder(df as real + 0.5, more as real + 0.5, (n + 1) as real);
    QuotientOrder((n + 1) as real, more as real + 0.5, (n + 1) as real, df as real + 0.5);
  }

  function Share(tf: nat, len: nat, avgdl: real): real
    requires tf > 0 && avgdl > 0.0
  {
    tf as real * (K1 + 1.0) / Saturation(tf, len, avgdl)
  }

  lemma ContributionSplits(ln: real -> real, n: real, avgdl: real, df: nat, tf: nat, len: nat)
    requires df > 0 && tf > 0 && avgdl > 0.0
    ensures Contribution(ln, n, avgdl, df, tf, len) == Share(tf, len, avgdl) * ln(IdfArgument(n, df))
    ensures Share(tf, len, avgdl) > 0.0
  {
    TimesQuotient(ln(IdfArgument(n, df)), tf as real * (K1 + 1.0), Saturation(tf, len, avgdl));
    PositiveQuotient(tf as real * (K1 + 1.0), Saturation(tf, len, avgdl));
  }

  lemma ShareRises(tf: nat, more: nat, len: nat, avgdl: real)
    requires 0 < tf < more && avgdl > 0.0
    ensures Share(tf, len, avgdl) < Share(more, len, avgdl) < K1 + 1.0
  {
    QuotientNonNegative(B * len as real, avgdl);
    var c := K1 * (1.0 - B + B * len as real / avgdl);
    var a, b := tf as real, more as real;
    ProductOrder(a, b, (K1 + 1.0) * c);
    assert a * (K1 + 1.0) * (b + c) - b * (K1 + 1.0) * (a + c) == a * ((K1 + 1.0) * c) - b * ((K1 + 1.0) * c);
    QuotientOrder(a * (K1 + 1.0), a + c, b * (K1 + 1.0), b + c);
    QuotientOrder(b * (K1 + 1.0), b + c, K1 + 1.0, 1.0);
  }

  lemma ShareFalls(tf: nat, len: nat, longer: nat, avgdl: real)
    requires tf > 0 && len < longer && avgdl > 0.0
    ensures Share(tf, longer, avgdl) < Share(tf, len, avgdl)
  {
    QuotientOrder(B * len as real, avgdl, B * longer as real, avgdl);
    var a := tf as real * (K1 + 1.0);
    ProductOrder(Saturation(tf, len, avgdl), Saturation(tf, longer, avgdl), a);
    QuotientOrder(a, Saturation(tf, longer, avgdl), a, Saturation(tf, len, avgdl));
  }

  /** One term scores more the oftener it stands in a chunk, with k1 + 1 times its logarithm as the limit. */
  lemma OftenerScoresMore(ln: real -> real, n: nat, avgdl: real, df: nat, tf: nat, more: nat, len: nat)
    requires 1 <= df <= n && 0 < tf < more && avgdl > 0.0 && PositiveAboveOne(ln)
    ensures Contribution(ln, n as real, avgdl, df, tf, len) < Contribution(ln, n as real, avgdl, df, more, len)
    ensures Contribution(ln, n as real, avgdl, df, more, len) < (K1 + 1.0) * ln(IdfArgument(n as real, df))
  {
    ContributionSplits(ln, n as real, avgdl, df, tf, len);
    ContributionSplits(ln, n as real, avgdl, df, more, len);
    IdfAboveOne(n, df);
    assert AboveOne(IdfArgument(n as real, df));
    ShareRises(tf, more, len, avgdl);
    ProductOrder(Share(tf, len, avgdl), Share(more, len, avgdl), ln(IdfArgument(n as real, df)));
    ProductOrder(Share(more, len, avgdl), K1 + 1.0, ln(IdfArgument(n as real, df)));
  }

  /** The same term scores less in a longer chunk. */
  lemma LongerScoresLess(ln: real -> real, n: nat, avgdl: real, df: nat, tf: nat, len: nat, longer: nat)
    requires 1 <= df <= n && tf > 0 && len < longer && avgdl > 0.0 && PositiveAboveOne(ln)
    ensures Contribution(ln, n as real, avgdl, df, tf, longer) < Contribution(ln, n as real, avgdl, df, tf, len)
  {
    ContributionSplits(ln, n as real, avgdl, df, tf, len);
    ContributionSplits(ln, n as real, avgdl, df, tf, longer);
    IdfAboveOne(n, df);
    assert AboveOne(IdfArgument(n as real, df));
    ShareFalls(tf, len, longer, avgdl);
    ProductOrder(Share(tf, longer, avgdl), Share(tf, len, avgdl), ln(IdfArgument(n as real, df)));
  }

  /** A term that more chunks hold scores less. */
  lemma CommonerScoresLess(ln: real -> real, n: nat, avgdl: real, df: nat, more: nat, tf: nat, len: nat)
    requires 1 <= df < more <= n && tf > 0 && avgdl > 0.0 && RisingAboveOne(ln)
    ensures Contribution(ln, n as real, avgdl, more, tf, len) < Contribution(ln, n as real, avgdl, df, tf, len)
  {
    ContributionSplits(ln, n as real, avgdl, df, tf, len);
    ContributionSplits(ln, n as real, avgdl, more, tf, len);
    IdfAboveOne(n, df);
    IdfAboveOne(n, more);
    CommonerIdf(n, df, more);
    assert AboveOne(IdfArgument(n as real, df)) && AboveOne(IdfArgument(n as real, more));
    var low, high := ln(IdfArgument(n as real, more)), ln(IdfArgument(n as real, df));
    ProductOrder(low, high, Share(tf, len, avgdl));
    assert Share(tf, len, avgdl) * low == low * Share(tf, len, avgdl);
    assert Share(tf, len, avgdl) * high == high * Share(tf, len, avgdl);
  }
}
