/**
 * Price resolution of src/Home.tsx: the scale of an SPL-token price, computed by
 * building the decimal text "1" followed by `decimals` zeros, and the choice of
 * scale and label between the configured SPL token and native SOL.
 */
module Pricing {
  import opened Wrappers
  import opened Utils

  /** The SPL token decimals when the environment sets none. */
  const DEFAULT_SPL_TOKEN_DECIMALS: nat := 9

  /** The SPL token label when the environment sets none (or sets the empty string). */
  const DEFAULT_SPL_TOKEN_NAME: string := "TOKEN"

  /** The label the page starts with, kept for native SOL prices. */
  const SOL_LABEL: string := "SOL"

  /** `decimals`: the configured value, 9 when the variable is unset. */
  function SplTokenDecimals(env: Option<nat>): (d: nat)
    ensures env.Some? ==> d == env.value
    ensures env.None? ==> d == DEFAULT_SPL_TOKEN_DECIMALS
  {
    env.GetOr(DEFAULT_SPL_TOKEN_DECIMALS)
  }

  /** `splTokenName`: the configured text when truthy, "TOKEN" otherwise. */
  function SplTokenName(env: Option<string>): (name: string)
    ensures name != ""
    ensures env.Some? && env.value != "" ==> name == env.value
  {
    if env.Some? && env.value != "" then env.value else DEFAULT_SPL_TOKEN_NAME
  }

  function Pow10(n: nat): (p: nat)
    ensures p >= 1
  {
    if n == 0 then 1 else 10 * Pow10(n - 1)
  }

  /** `new Array(n).join('0')`: n empty slots joined by n - 1 zeros. */
  function JoinZeros(n: nat): (s: string)
    ensures |s| == if n == 0 then 0 else n - 1
    ensures forall i :: 0 <= i < |s| ==> s[i] == '0'
  {
    if n <= 1 then [] else JoinZeros(n - 1) + ['0']
  }

  /** The value of a decimal digit. */
  function DigitValue(c: char): nat
  {
    if '0' <= c <= '9' then (c - '0') as nat else 0
  }

  /** The value of a text of decimal digits, read from the left (unary `+` on such a text). */
  function ParseDecimal(s: string): nat
  {
    if s == [] then 0 else 10 * ParseDecimal(s[..|s| - 1]) + DigitValue(s[|s| - 1])
  }

  /** The text the page builds: '1', then `new Array(decimals).join('0')`, then '0'. */
  function DividerText(decimals: nat): string
  {
    ['1'] + JoinZeros(decimals) + ['0']
  }

  lemma {:induction false} OneThenZeros(k: nat)
    ensures ParseDecimal(['1'] + JoinZeros(k + 1)) == Pow10(k)
  {
    if k > 0 {
      var s := ['1'] + JoinZeros(k + 1);
      assert s == (['1'] + JoinZeros(k)) + ['0'];
      assert s[..|s| - 1] == ['1'] + JoinZeros(k);
      OneThenZeros(k - 1);
    } else {
      assert ['1'] + JoinZeros(1) == ['1'];
      assert ['1'][..0] == [];
    }
  }

  /**
   * `divider`: 1 when `decimals` is 0 (falsy), otherwise the value of `DividerText`;
   * either way ten to the configured decimals.
   */
  function Divider(decimals: nat): (d: nat)
    ensures d == Pow10(decimals)
  {
    if decimals == 0 then 1
    else
      var t := DividerText(decimals);
      assert t[..|t| - 1] == ['1'] + JoinZeros(decimals);
      OneThenZeros(decimals - 1);
      ParseDecimal(t)
  }

  /** Base units per displayed unit: the SPL scale with a token mint, lamports per SOL without. */
  function Scale(tokenMint: Option<PublicKey>, decimals: nat): (s: nat)
    ensures s >= 1
  {
    if tokenMint.Some? then Divider(decimals) else LAMPORTS_PER_SOL
  }

  /** A raw price in base units, shown in whole units of its currency. */
  function UnitPrice(raw: nat, scale: nat): (p: real)
    requires scale >= 1
    ensures p * scale as real == raw as real
    ensures p >= 0.0
  {
    raw as real / scale as real
  }

  /** The resolved price is the raw price divided by ten to the decimals (SPL) or by 10^9 (SOL). */
  lemma ScaleIsPowerOfTen(tokenMint: Option<PublicKey>, decimals: nat)
    ensures Scale(tokenMint, decimals) == if tokenMint.Some? then Pow10(decimals) else Pow10(9)
  {
    assert Pow10(9) == 1_000_000_000 by {
      assert Pow10(3) == 1000;
      assert Pow10(6) == 1000 * Pow10(3);
      assert Pow10(9) == 1000 * Pow10(6);
    }
  }

  /**
   * A raw price of 10^9 base units reads 1 SOL without a token mint, and 1000 tokens
   * with a token mint of 6 decimals.
   */
  lemma PriceExamples()
    ensures UnitPrice(1_000_000_000, Scale(None, 6)) == 1.0
    ensures UnitPrice(1_000_000_000, Scale(Some(TOKEN_PROGRAM_ID), 6)) == 1000.0
  {
    ScaleIsPowerOfTen(Some(TOKEN_PROGRAM_ID), 6);
    assert Pow10(6) == 1_000_000;
  }
}
