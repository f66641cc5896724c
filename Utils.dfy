/**
 * The pure helpers of src/utils.ts: date conversion, number formatting fallbacks,
 * the associated-token-account instruction, JavaScript's `String.prototype.indexOf`
 * and the NUL stripping applied to decoded token metadata.
 */
module Utils {
  import opened Wrappers

  /** A Solana public key, as its base58 text. */
  type PublicKey = string

  const LAMPORTS_PER_SOL: nat := 1_000_000_000

  const SYSTEM_PROGRAM_ID: PublicKey := "11111111111111111111111111111111"
  const TOKEN_PROGRAM_ID: PublicKey := "TokenkegQfeZyiNwAJbNbGKPFXCWuBvf9Ss623VQ5DA"
  const SYSVAR_RENT_PUBKEY: PublicKey := "SysvarRent111111111111111111111111111111111"
  const SPL_ASSOCIATED_TOKEN_ACCOUNT_PROGRAM_ID: PublicKey := "ATokenGPvbdGVxr1b2hvZbsiqW5xWH25efTNsLJA8knL"

  // ---------------------------------------------------------------------------
  // toDate and formatNumber
  // ---------------------------------------------------------------------------

  /**
   * `toDate`: an on-chain timestamp in seconds (a BN, so even zero is a present,
   * truthy object) becomes a Date, given here as its milliseconds since the epoch.
   */
  function ToDate(seconds: Option<int>): (millis: Option<int>)
    ensures millis.None? <==> seconds.None?
    ensures seconds.Some? ==> millis.value % 1000 == 0 && millis.value / 1000 == seconds.value
  {
    match seconds
    case None => None
    case Some(s) => Some(s * 1000)
  }

  /** What `formatNumber.format` renders: the placeholder, or the number with two decimals. */
  datatype Formatted = Dashes | TwoDecimals(value: real)

  /** `formatNumber.format`: an absent value and the falsy number 0 both give "--". */
  function Format(val: Option<real>): (f: Formatted)
    ensures f.Dashes? <==> (val.None? || val.value == 0.0)
    ensures f.TwoDecimals? ==> val.Some? && f.value == val.value && f.value != 0.0
  {
    if val.None? || val.value == 0.0 then Dashes else TwoDecimals(val.value)
  }

  /**
   * `formatNumber.asNumber`: lamports to SOL. Unlike `Format`, a present zero BN is
   * truthy and converts to 0.0.
   */
  function AsNumber(lamports: Option<int>): (sol: Option<real>)
    ensures sol.None? <==> lamports.None?
    ensures lamports.Some? ==> sol.value * LAMPORTS_PER_SOL as real == lamports.value as real
  {
    match lamports
    case None => None
    case Some(v) => Some(v as real / LAMPORTS_PER_SOL as real)
  }

  // ---------------------------------------------------------------------------
  // createAssociatedTokenAccountInstruction
  // ---------------------------------------------------------------------------

  datatype AccountMeta = AccountMeta(pubkey: PublicKey, isSigner: bool, isWritable: bool)

  datatype Instruction = Instruction(keys: seq<AccountMeta>, programId: PublicKey, data: seq<bv8>)

  /** The public keys of the account list, in order. */
  function Pubkeys(keys: seq<AccountMeta>): (r: seq<PublicKey>)
    ensures |r| == |keys|
    ensures forall i :: 0 <= i < |keys| ==> r[i] == keys[i].pubkey
  {
    if keys == [] then [] else [keys[0].pubkey] + Pubkeys(keys[1..])
  }

  /**
   * The instruction that creates `walletAddress`'s associated token account for
   * `splTokenMintAddress` at `associatedTokenAddress`, paid for by `payer`.
   */
  function CreateAssociatedTokenAccountInstruction(
    associatedTokenAddress: PublicKey, payer: PublicKey,
    walletAddress: PublicKey, splTokenMintAddress: PublicKey): (ix: Instruction)
    ensures Pubkeys(ix.keys) == [payer, associatedTokenAddress, walletAddress, splTokenMintAddress,
                                 SYSTEM_PROGRAM_ID, TOKEN_PROGRAM_ID, SYSVAR_RENT_PUBKEY]
    ensures forall i :: 0 <= i < |ix.keys| ==> (ix.keys[i].isSigner <==> i == 0)
    ensures forall i :: 0 <= i < |ix.keys| ==> (ix.keys[i].isWritable <==> i <= 1)
    ensures ix.programId == SPL_ASSOCIATED_TOKEN_ACCOUNT_PROGRAM_ID && ix.data == []
  {
    var keys := [
      AccountMeta(payer, true, true),
      AccountMeta(associatedTokenAddress, false, true),
      AccountMeta(walletAddress, false, false),
      AccountMeta(splTokenMintAddress, false, false),
      AccountMeta(SYSTEM_PROGRAM_ID, false, false),
      AccountMeta(TOKEN_PROGRAM_ID, false, false),
      AccountMeta(SYSVAR_RENT_PUBKEY, false, false)
    ];
    Instruction(keys, SPL_ASSOCIATED_TOKEN_ACCOUNT_PROGRAM_ID, [])
  }

  // ---------------------------------------------------------------------------
  // String.prototype.indexOf
  // ---------------------------------------------------------------------------

  /** `p` occurs in `s` at position `i`. */
  predicate OccursAt(s: string, p: string, i: int)
  {
    0 <= i && i + |p| <= |s| && s[i..i + |p|] == p
  }

  /** The first position at or after `from` where `p` occurs in `s`, or -1. */
  function IndexOfFrom(s: string, p: string, from: nat): (r: int)
    ensures r == -1 || (from <= r && OccursAt(s, p, r))
    ensures forall j :: from <= j && (r == -1 || j < r) ==> !OccursAt(s, p, j)
    decreases |s| - from
  {
    if from + |p| > |s| then -1
    else if s[from..from + |p|] == p then from
    else IndexOfFrom(s, p, from + 1)
  }

  /** JavaScript's `s.indexOf(p)`: the first position of `p` in `s`, or -1. */
  function IndexOf(s: string, p: string): int
  {
    IndexOfFrom(s, p, 0)
  }

  /** `s.indexOf(p)` is 0 exactly when `s` starts with `p`. */
  lemma IndexOfZeroIffPrefix(s: string, p: string)
    ensures IndexOf(s, p) == 0 <==> (|p| <= |s| && s[..|p|] == p)
  {
    if |p| <= |s| && s[..|p|] == p {
      assert OccursAt(s, p, 0);
    }
  }

  /** `s.indexOf(p) >= 0` exactly when `p` occurs somewhere in `s`. */
  lemma IndexOfFindsOccurrence(s: string, p: string)
    ensures IndexOf(s, p) >= 0 <==> exists i :: OccursAt(s, p, i)
  {
    if exists i :: OccursAt(s, p, i) {
      var i :| OccursAt(s, p, i);
      assert IndexOf(s, p) != -1;
    }
  }

  // ---------------------------------------------------------------------------
  // NUL stripping of decoded metadata (decodeMetadata)
  // ---------------------------------------------------------------------------

  const NUL: char := '\0'

  /** `s.replace(/\u0000/g, '')`: every NUL removed, the other characters kept in order. */
  function StripNul(s: string): (r: string)
    ensures NUL !in r
    ensures |r| <= |s|
    ensures forall c :: c != NUL ==> multiset(r)[c] == multiset(s)[c]
  {
    if s == [] then []
    else
      assert s == [s[0]] + s[1..];
      (if s[0] == NUL then [] else [s[0]]) + StripNul(s[1..])
  }

  /** A string of `k` NUL characters: the padding of a fixed-width borsh string. */
  function Nuls(k: nat): (r: string)
    ensures |r| == k && forall i :: 0 <= i < k ==> r[i] == NUL
  {
    if k == 0 then [] else [NUL] + Nuls(k - 1)
  }

  /** Stripping distributes over concatenation. */
  lemma {:induction false} StripNulAppend(a: string, b: string)
    ensures StripNul(a + b) == StripNul(a) + StripNul(b)
  {
    if a != [] {
      var head := if a[0] == NUL then [] else [a[0]];
      assert (a + b)[0] == a[0] && (a + b)[1..] == a[1..] + b;
      calc {
        StripNul(a + b);
        head + StripNul(a[1..] + b);
        { StripNulAppend(a[1..], b); }
        head + (StripNul(a[1..]) + StripNul(b));
        (head + StripNul(a[1..])) + StripNul(b);
        StripNul(a) + StripNul(b);
      }
    } else {
      assert a + b == b;
    }
  }

  /** A string without NULs is left as it is. */
  lemma {:induction false} StripNulOfNulFree(s: string)
    requires NUL !in s
    ensures StripNul(s) == s
  {
    if s != [] {
      assert NUL !in s[1..] by { assert forall i :: 0 <= i < |s| - 1 ==> s[1..][i] == s[i + 1]; }
      StripNulOfNulFree(s[1..]);
    }
  }

  /** Stripping twice is stripping once. */
  lemma StripNulIdempotent(s: string)
    ensures StripNul(StripNul(s)) == StripNul(s)
  {
    StripNulOfNulFree(StripNul(s));
  }

  /** Padding a NUL-free text with NULs and stripping it gives the text back. */
  lemma {:induction false} StripNulPadding(text: string, k: nat)
    requires NUL !in text
    ensures StripNul(text + Nuls(k)) == text
  {
    StripNulAppend(text, Nuls(k));
    StripNulOfNulFree(text);
    NulsStripToEmpty(k);
  }

  lemma {:induction false} NulsStripToEmpty(k: nat)
    ensures StripNul(Nuls(k)) == []
  {
    if k > 0 {
      assert Nuls(k)[1..] == Nuls(k - 1);
      NulsStripToEmpty(k - 1);
    }
  }

  /** The metadata text fields a decoded record carries. */
  datatype Data = Data(name: string, symbol: string, uri: string)

  /** A decoded token-metadata account. */
  datatype Metadata = Metadata(updateAuthority: PublicKey, mint: PublicKey, data: Data)

  /** The record with NULs stripped from name, uri and symbol; nothing else changes. */
  function Clean(m: Metadata): (r: Metadata)
    ensures NUL !in r.data.name && NUL !in r.data.uri && NUL !in r.data.symbol
    ensures r.data == Data(StripNul(m.data.name), StripNul(m.data.symbol), StripNul(m.data.uri))
    ensures r.updateAuthority == m.updateAuthority && r.mint == m.mint
  {
    m.(data := Data(StripNul(m.data.name), StripNul(m.data.symbol), StripNul(m.data.uri)))
  }

  /**
   * `decodeMetadata`: the borsh deserialization (a foreign library; `None` when it
   * throws) followed by the NUL stripping.
   */
  function DecodeMetadata(deserialize: seq<bv8> -> Option<Metadata>, buffer: seq<bv8>): (r: Option<Metadata>)
    ensures r.None? <==> deserialize(buffer).None?
    ensures r.Some? ==> r.value == Clean(deserialize(buffer).value)
  {
    match deserialize(buffer)
    case None => None
    case Some(m) => Some(Clean(m))
  }

  /** Cleaning is idempotent, and a record without NULs is already clean. */
  lemma CleanIdempotent(m: Metadata)
    ensures Clean(Clean(m)) == Clean(m)
    ensures NUL !in m.data.name && NUL !in m.data.uri && NUL !in m.data.symbol ==> Clean(m) == m
  {
    StripNulIdempotent(m.data.name);
    StripNulIdempotent(m.data.uri);
    StripNulIdempotent(m.data.symbol);
    if NUL !in m.data.name && NUL !in m.data.uri && NUL !in m.data.symbol {
      StripNulOfNulFree(m.data.name);
      StripNulOfNulFree(m.data.uri);
      StripNulOfNulFree(m.data.symbol);
    }
  }
}
