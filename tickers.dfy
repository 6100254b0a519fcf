/**
 * The deterministic part of `get_sp500_tickers`: the scraped `Symbol` column
 * has every `.` replaced by `-` (Yahoo's spelling of share classes, as in
 * `BRK.B` -> `BRK-B`) and the list is cut with Python's `[:top_n]`.
 */
module Tickers {

  /** The default of `top_n`. */
  const DefaultTopN: int := 10

  /** `sym.replace('.', '-')`: a one-character replacement works position by position. */
  function Normalize(sym: string): (r: string)
    ensures |r| == |sym|
    ensures '.' !in r
    ensures forall i :: 0 <= i < |sym| && sym[i] != '.' ==> r[i] == sym[i]
    ensures forall i :: 0 <= i < |sym| && sym[i] == '.' ==> r[i] == '-'
  {
    seq(|sym|, i requires 0 <= i < |sym| => if sym[i] == '.' then '-' else sym[i])
  }

  /** The reverse spelling, `-` back to `.`. */
  function Restore(sym: string): (r: string)
    ensures |r| == |sym|
    ensures '-' !in r
  {
    seq(|sym|, i requires 0 <= i < |sym| => if sym[i] == '-' then '.' else sym[i])
  }

  /** A symbol that never used `-` is recovered from its normalised form. */
  lemma RestoreNormalize(sym: string)
    requires '-' !in sym
    ensures Restore(Normalize(sym)) == sym
  {
    var n := Normalize(sym);
    forall i | 0 <= i < |sym| ensures Restore(n)[i] == sym[i] {
      assert sym[i] in sym;
    }
  }

  /** So two such symbols never collapse onto one ticker. */
  lemma NormalizeInjective(a: string, b: string)
    requires '-' !in a && '-' !in b
    requires Normalize(a) == Normalize(b)
    ensures a == b
  {
    RestoreNormalize(a);
    RestoreNormalize(b);
  }

  /** Normalising twice changes nothing more. */
  lemma NormalizeIdempotent(sym: string)
    ensures Normalize(Normalize(sym)) == Normalize(sym)
  {
    var n := Normalize(sym);
    forall i | 0 <= i < |n| ensures Normalize(n)[i] == n[i] {
      assert n[i] in n;
    }
  }

  /** The end index Python uses for `xs[:stop]` on a list of length `len`. */
  function SliceEnd(stop: int, len: nat): (e: nat)
    ensures e <= len
    ensures stop >= 0 ==> e == if stop < len then stop else len
    ensures stop < 0 ==> e == if len + stop > 0 then len + stop else 0
  {
    if stop >= 0 then (if stop < len then stop else len)
    else if len + stop > 0 then len + stop else 0
  }

  /** `[:top_n]` of the normalised symbol list. */
  function SpTickers(symbols: seq<string>, topN: int): (ts: seq<string>)
    ensures |ts| == SliceEnd(topN, |symbols|)
    ensures forall i :: 0 <= i < |ts| ==> ts[i] == Normalize(symbols[i])
  {
    var all := seq(|symbols|, i requires 0 <= i < |symbols| => Normalize(symbols[i]));
    all[..SliceEnd(topN, |symbols|)]
  }

  /**
   * How many tickers `[:top_n]` keeps: `top_n` of them when there are that
   * many, all of them when there are fewer, and for a negative `top_n` all
   * but the last `-top_n`, or none when that is more than there are.
   */
  lemma SpTickersCount(symbols: seq<string>, topN: int)
    ensures 0 <= topN <= |symbols| ==> |SpTickers(symbols, topN)| == topN
    ensures topN >= |symbols| ==> SpTickers(symbols, topN) == SpTickers(symbols, |symbols|)
    ensures topN >= |symbols| ==> |SpTickers(symbols, topN)| == |symbols|
    ensures topN < 0 && -topN <= |symbols| ==> |SpTickers(symbols, topN)| == |symbols| + topN
    ensures topN < 0 && -topN <= |symbols| ==> SpTickers(symbols, topN) == SpTickers(symbols, |symbols| + topN)
    ensures topN < 0 && -topN > |symbols| ==> SpTickers(symbols, topN) == []
  {
  }

  /** A larger `top_n` only extends the list: the shorter result is a prefix. */
  lemma SpTickersPrefix(symbols: seq<string>, m: int, n: int)
    requires 0 <= m <= n
    ensures SpTickers(symbols, m) <= SpTickers(symbols, n)
  {
  }
}
