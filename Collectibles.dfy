/**
 * `getAllCollectibles` from src/utils.ts: for each wallet, count the token accounts
 * that look like NFTs and whose metadata was issued by a given update authority under
 * a given collection name. The RPC results are given as a ledger snapshot, the
 * metadata address derivation and the borsh decoder as function parameters.
 */
module Collectibles {
  import opened Wrappers
  import opened Utils

  /** `tokenAmount` of a parsed SPL token account: the raw amount as decimal text. */
  datatype TokenAmount = TokenAmount(amount: string, decimals: int)

  /** One entry of `getParsedTokenAccountsByOwner`. */
  datatype ParsedTokenAccount = ParsedTokenAccount(pubkey: PublicKey, mint: PublicKey, tokenAmount: TokenAmount)

  /** A candidate NFT: its mint and the token account holding it. */
  datatype MintAddress = MintAddress(mint: PublicKey, tokenAccount: PublicKey)

  /** A candidate together with its derived metadata account address. */
  datatype ProgramAddress = ProgramAddress(mint: PublicKey, tokenAccount: PublicKey, program: PublicKey)

  /** A candidate together with the fetched metadata account (`None` for a null account). */
  datatype AccountInfo = AccountInfo(account: Option<seq<bv8>>, mint: PublicKey, tokenAccount: PublicKey, program: PublicKey)

  /** One `{updateAuthority, collectionName}` filter. */
  datatype Filter = Filter(updateAuthority: PublicKey, collectionName: string)

  /**
   * What the ledger answers: the parsed token accounts of each wallet (a wallet
   * without an entry is one whose lookup throws) and the data of every existing account.
   */
  datatype Ledger = Ledger(tokenAccounts: map<PublicKey, seq<ParsedTokenAccount>>, accounts: map<PublicKey, seq<bv8>>)

  /** The promise's value: one count per wallet, or the bare number returned from the catch. */
  datatype CollectiblesResult = Counts(counts: seq<nat>) | Sentinel(value: nat)

  /** What the catch block returns. */
  const FALLBACK_COUNT: nat := 3

  /** How many addresses one `getMultipleAccountsInfo` request carries at most. */
  const PAGE_SIZE: nat := 100

  // ---------------------------------------------------------------------------
  // Candidate selection
  // ---------------------------------------------------------------------------

  /**
   * A token account is an NFT candidate: a balance other than '0' and no decimals.
   * The balance is compared as text, so only the exact text "0" counts as empty.
   */
  predicate IsNftCandidate(a: ParsedTokenAccount)
    ensures a.tokenAmount.amount == "0" ==> !IsNftCandidate(a)
    ensures a.tokenAmount.decimals != 0 ==> !IsNftCandidate(a)
    ensures a.tokenAmount.decimals == 0 && a.tokenAmount.amount == "00" ==> IsNftCandidate(a)
  {
    a.tokenAmount.amount != "0" && a.tokenAmount.decimals == 0
  }

  /** The `filter` then `map` over one wallet's token accounts. */
  function PotentialNfts(accounts: seq<ParsedTokenAccount>): (r: seq<MintAddress>)
    ensures |r| <= |accounts|
  {
    if accounts == [] then []
    else
      (if IsNftCandidate(accounts[0]) then [MintAddress(accounts[0].mint, accounts[0].pubkey)] else [])
      + PotentialNfts(accounts[1..])
  }

  /** The filter and map keep the order and multiplicity: they distribute over concatenation. */
  lemma {:induction false} PotentialNftsAppend(a: seq<ParsedTokenAccount>, b: seq<ParsedTokenAccount>)
    ensures PotentialNfts(a + b) == PotentialNfts(a) + PotentialNfts(b)
  {
    if a == [] {
      assert a + b == b;
    } else {
      var ab := a + b;
      assert ab[0] == a[0] && ab[1..] == a[1..] + b;
      var head := if IsNftCandidate(a[0]) then [MintAddress(a[0].mint, a[0].pubkey)] else [];
      assert PotentialNfts(ab) == head + PotentialNfts(a[1..] + b);
      assert PotentialNfts(a) == head + PotentialNfts(a[1..]);
      PotentialNftsAppend(a[1..], b);
    }
  }

  /** A candidate is kept exactly when some token account passes the NFT test and projects to it. */
  lemma {:induction false} PotentialNftsExact(accounts: seq<ParsedTokenAccount>, m: MintAddress)
    ensures m in PotentialNfts(accounts) <==>
            exists a :: a in accounts && IsNftCandidate(a) && m == MintAddress(a.mint, a.pubkey)
  {
    if accounts != [] {
      PotentialNftsExact(accounts[1..], m);
      assert forall a :: a in accounts <==> a == accounts[0] || a in accounts[1..];
    }
  }

  /** Each candidate paired with its metadata address, in order. */
  function ProgramAddresses(mints: seq<MintAddress>, derive: PublicKey -> PublicKey): (r: seq<ProgramAddress>)
    ensures |r| == |mints|
    ensures forall i :: 0 <= i < |mints| ==>
              r[i] == ProgramAddress(mints[i].mint, mints[i].tokenAccount, derive(mints[i].mint))
  {
    seq(|mints|, i requires 0 <= i < |mints| =>
      ProgramAddress(mints[i].mint, mints[i].tokenAccount, derive(mints[i].mint)))
  }

  /** The metadata addresses requested, `program.program[0]` for each entry. */
  function Programs(ps: seq<ProgramAddress>): (r: seq<PublicKey>)
    ensures |r| == |ps| && forall i :: 0 <= i < |ps| ==> r[i] == ps[i].program
  {
    seq(|ps|, i requires 0 <= i < |ps| => ps[i].program)
  }

  // ---------------------------------------------------------------------------
  // Paged fetching
  // ---------------------------------------------------------------------------

  function Lookup(accounts: map<PublicKey, seq<bv8>>, key: PublicKey): Option<seq<bv8>>
  {
    if key in accounts then Some(accounts[key]) else None
  }

  /** One `getMultipleAccountsInfo` answer: an entry per requested address, null when absent. */
  function GetMultipleAccountsInfo(accounts: map<PublicKey, seq<bv8>>, keys: seq<PublicKey>): (r: seq<Option<seq<bv8>>>)
    ensures |r| == |keys| && forall i :: 0 <= i < |keys| ==> r[i] == Lookup(accounts, keys[i])
  {
    seq(|keys|, i requires 0 <= i < |keys| => Lookup(accounts, keys[i]))
  }

  /** The requests of a run, joined back together. */
  function Concat(pages: seq<seq<PublicKey>>): seq<PublicKey>
  {
    if pages == [] then [] else Concat(pages[..|pages| - 1]) + pages[|pages| - 1]
  }

  function Min(a: int, b: int): int { if a <= b then a else b }

  /** Answering two requests one after the other answers their concatenation. */
  lemma GetMultipleAccountsInfoAppend(accounts: map<PublicKey, seq<bv8>>, a: seq<PublicKey>, b: seq<PublicKey>)
    ensures GetMultipleAccountsInfo(accounts, a + b) ==
            GetMultipleAccountsInfo(accounts, a) + GetMultipleAccountsInfo(accounts, b)
  {
    var lhs := GetMultipleAccountsInfo(accounts, a + b);
    var rhs := GetMultipleAccountsInfo(accounts, a) + GetMultipleAccountsInfo(accounts, b);
    assert forall i :: 0 <= i < |lhs| ==> lhs[i] == rhs[i] by {
      forall i | 0 <= i < |lhs|
        ensures lhs[i] == rhs[i]
      {
        if i < |a| { assert (a + b)[i] == a[i]; } else { assert (a + b)[i] == b[i - |a|]; }
      }
    }
  }

  /** `k` pages of `PAGE_SIZE`, the last one not empty, cover `n` addresses exactly when `k` is ceil(n/100). */
  lemma PageCount(n: nat, k: nat)
    requires PAGE_SIZE * k >= n
    requires k == 0 || PAGE_SIZE * (k - 1) < n
    ensures k == (n + PAGE_SIZE - 1) / PAGE_SIZE
  {
  }

  /**
   * The paging loop: requests of at most 100 addresses, ceil(n/100) of them,
   * covering `addresses` in order; the joined answers line up index by index.
   */
  method FetchAccountInfos(accounts: map<PublicKey, seq<bv8>>, addresses: seq<PublicKey>)
    returns (accountInfos: seq<Option<seq<bv8>>>, requests: seq<seq<PublicKey>>)
    ensures accountInfos == GetMultipleAccountsInfo(accounts, addresses)
    ensures |requests| == (|addresses| + PAGE_SIZE - 1) / PAGE_SIZE
    ensures forall k :: 0 <= k < |requests| ==> 0 < |requests[k]| <= PAGE_SIZE
    ensures Concat(requests) == addresses
  {
    accountInfos, requests := [], [];
    var cur := 0;
    while cur < |addresses|
      invariant cur == PAGE_SIZE * |requests|
      invariant |requests| == 0 || PAGE_SIZE * (|requests| - 1) < |addresses|
      invariant forall k :: 0 <= k < |requests| ==> 0 < |requests[k]| <= PAGE_SIZE
      invariant Concat(requests) == addresses[..Min(cur, |addresses|)]
      invariant accountInfos == GetMultipleAccountsInfo(accounts, Concat(requests))
    {
      var subAddresses := addresses[cur..Min(cur + PAGE_SIZE, |addresses|)];
      var subAccountInfos := GetMultipleAccountsInfo(accounts, subAddresses);
      assert Concat(requests + [subAddresses]) == Concat(requests) + subAddresses by {
        assert (requests + [subAddresses])[..|requests|] == requests;
      }
      assert addresses[..Min(cur + PAGE_SIZE, |addresses|)] == addresses[..cur] + subAddresses;
      GetMultipleAccountsInfoAppend(accounts, Concat(requests), subAddresses);
      accountInfos := accountInfos + subAccountInfos;
      requests := requests + [subAddresses];
      cur := cur + PAGE_SIZE;
    }
    assert addresses[..|addresses|] == addresses;
    PageCount(|addresses|, |requests|);
  }

  /** `accountInfos.map((account, index) => ({account, ...programAddresses[index]}))`. */
  function Pair(infos: seq<Option<seq<bv8>>>, ps: seq<ProgramAddress>): (r: seq<AccountInfo>)
    requires |infos| == |ps|
    ensures |r| == |ps|
    ensures forall i :: 0 <= i < |ps| ==>
              r[i] == AccountInfo(infos[i], ps[i].mint, ps[i].tokenAccount, ps[i].program)
  {
    seq(|ps|, i requires 0 <= i < |ps| => AccountInfo(infos[i], ps[i].mint, ps[i].tokenAccount, ps[i].program))
  }

  /** `accountInfos.filter(info => info.account)`: the entries with an account. */
  function NonNull(infos: seq<AccountInfo>): (r: seq<AccountInfo>)
    ensures |r| <= |infos|
    ensures forall x :: x in r <==> x in infos && x.account.Some?
  {
    if infos == [] then []
    else
      assert infos == [infos[0]] + infos[1..];
      (if infos[0].account.Some? then [infos[0]] else []) + NonNull(infos[1..])
  }

  /** The filter keeps the order: it distributes over concatenation. */
  lemma {:induction false} NonNullAppend(a: seq<AccountInfo>, b: seq<AccountInfo>)
    ensures NonNull(a + b) == NonNull(a) + NonNull(b)
  {
    if a == [] {
      assert a + b == b;
    } else {
      assert (a + b)[0] == a[0];
      assert (a + b)[1..] == a[1..] + b;
      NonNullAppend(a[1..], b);
    }
  }

  // ---------------------------------------------------------------------------
  // Matching decoded metadata against the filters
  // ---------------------------------------------------------------------------

  /**
   * `metadata.updateAuthority === filter.updateAuthority && name.indexOf(collectionName) >= 0`:
   * the same authority, and the collection name occurs somewhere in the record's name.
   */
  predicate FilterMatches(m: Metadata, f: Filter)
    ensures FilterMatches(m, f) <==>
              m.updateAuthority == f.updateAuthority && exists i :: OccursAt(m.data.name, f.collectionName, i)
  {
    IndexOfFindsOccurrence(m.data.name, f.collectionName);
    m.updateAuthority == f.updateAuthority && IndexOf(m.data.name, f.collectionName) >= 0
  }

  /** `filters.find(...)`: the first filter that matches, if any. */
  function FindFilter(m: Metadata, filters: seq<Filter>): (r: Option<Filter>)
    ensures r.Some? ==> r.value in filters && FilterMatches(m, r.value)
    ensures r.None? ==> forall f :: f in filters ==> !FilterMatches(m, f)
  {
    if filters == [] then None
    else if FilterMatches(m, filters[0]) then Some(filters[0])
    else FindFilter(m, filters[1..])
  }

  /** An entry the scan is meant to count: it has an account, which decodes to a record some filter matches. */
  predicate Collectible(x: AccountInfo, deserialize: seq<bv8> -> Option<Metadata>, filters: seq<Filter>)
  {
    && x.account.Some?
    && var md := DecodeMetadata(deserialize, x.account.value);
       md.Some? && exists f :: f in filters && FilterMatches(md.value, f)
  }

  /** The entries the scan is meant to count, in their original order. */
  function Kept(infos: seq<AccountInfo>, deserialize: seq<bv8> -> Option<Metadata>, filters: seq<Filter>)
    : (r: seq<AccountInfo>)
    ensures |r| <= |infos|
    ensures forall x :: x in r <==> x in infos && Collectible(x, deserialize, filters)
  {
    if infos == [] then []
    else
      assert infos == [infos[0]] + infos[1..];
      (if Collectible(infos[0], deserialize, filters) then [infos[0]] else []) + Kept(infos[1..], deserialize, filters)
  }

  /** Selecting the counted entries distributes over concatenation. */
  lemma {:induction false} KeptAppend(a: seq<AccountInfo>, b: seq<AccountInfo>,
                                      deserialize: seq<bv8> -> Option<Metadata>, filters: seq<Filter>)
    ensures Kept(a + b, deserialize, filters) == Kept(a, deserialize, filters) + Kept(b, deserialize, filters)
  {
    if a == [] {
      assert a + b == b;
    } else {
      assert (a + b)[0] == a[0];
      assert (a + b)[1..] == a[1..] + b;
      KeptAppend(a[1..], b, deserialize, filters);
    }
  }

  /** Dropping the null accounts first changes nothing: a null account is never counted. */
  lemma {:induction false} KeptOfNonNull(infos: seq<AccountInfo>,
                                         deserialize: seq<bv8> -> Option<Metadata>, filters: seq<Filter>)
    ensures Kept(NonNull(infos), deserialize, filters) == Kept(infos, deserialize, filters)
  {
    if infos != [] {
      var first := if infos[0].account.Some? then [infos[0]] else [];
      assert NonNull(infos) == first + NonNull(infos[1..]);
      KeptAppend(first, NonNull(infos[1..]), deserialize, filters);
      KeptOfNonNull(infos[1..], deserialize, filters);
    }
  }

  /**
   * The `tokenInfoList` the decode loop builds over a prefix of the non-null
   * accounts, or `None` once a decode has thrown.
   */
  function MatchingInfos(infos: seq<AccountInfo>, deserialize: seq<bv8> -> Option<Metadata>, filters: seq<Filter>)
    : (r: Option<seq<AccountInfo>>)
    requires forall i :: 0 <= i < |infos| ==> infos[i].account.Some?
    ensures r.Some? ==> |r.value| <= |infos|
  {
    if infos == [] then Some([])
    else
      var last := infos[|infos| - 1];
      match MatchingInfos(infos[..|infos| - 1], deserialize, filters)
      case None => None
      case Some(list) =>
        match DecodeMetadata(deserialize, last.account.value)
        case None => None
        case Some(metadata) =>
          if FindFilter(metadata, filters).Some? then Some(list + [last]) else Some(list)
  }

  /** The decode loop fails exactly when one of the accounts does not decode. */
  lemma {:induction false} MatchingInfosFailure(
    infos: seq<AccountInfo>, deserialize: seq<bv8> -> Option<Metadata>, filters: seq<Filter>)
    requires forall i :: 0 <= i < |infos| ==> infos[i].account.Some?
    ensures MatchingInfos(infos, deserialize, filters).None? <==>
            exists x :: x in infos && x.account.Some? && deserialize(x.account.value).None?
  {
    if infos != [] {
      var init := infos[..|infos| - 1];
      var last := infos[|infos| - 1];
      assert infos == init + [last];
      MatchingInfosFailure(init, deserialize, filters);
      if exists x :: x in infos && x.account.Some? && deserialize(x.account.value).None? {
        var x :| x in infos && x.account.Some? && deserialize(x.account.value).None?;
        assert x in init || x == last;
      }
    }
  }

  /** Every kept account decodes to a record that some filter matches, and comes from the input. */
  lemma {:induction false} MatchingInfosSound(
    infos: seq<AccountInfo>, deserialize: seq<bv8> -> Option<Metadata>, filters: seq<Filter>)
    requires forall i :: 0 <= i < |infos| ==> infos[i].account.Some?
    ensures var r := MatchingInfos(infos, deserialize, filters);
            r.Some? ==> forall x :: x in r.value ==>
              x in infos && x.account.Some? &&
              var md := DecodeMetadata(deserialize, x.account.value);
              md.Some? && exists f :: f in filters && FilterMatches(md.value, f)
  {
    if infos != [] {
      var init := infos[..|infos| - 1];
      MatchingInfosSound(init, deserialize, filters);
      assert forall x :: x in init ==> x in infos;
    }
  }

  /**
   * When the decode loop completes, its list is exactly the entries meant to be
   * counted, in order: nothing that matches is missed and nothing else is kept.
   */
  lemma {:induction false} MatchingInfosExact(
    infos: seq<AccountInfo>, deserialize: seq<bv8> -> Option<Metadata>, filters: seq<Filter>)
    requires forall i :: 0 <= i < |infos| ==> infos[i].account.Some?
    ensures MatchingInfos(infos, deserialize, filters).Some? ==>
              MatchingInfos(infos, deserialize, filters).value == Kept(infos, deserialize, filters)
  {
    if infos != [] && MatchingInfos(infos, deserialize, filters).Some? {
      var init := infos[..|infos| - 1];
      var last := infos[|infos| - 1];
      assert infos == init + [last];
      MatchingInfosExact(init, deserialize, filters);
      KeptAppend(init, [last], deserialize, filters);
      var md := DecodeMetadata(deserialize, last.account.value);
      assert md.Some?;
      assert Kept([last], deserialize, filters) == if FindFilter(md.value, filters).Some? then [last] else [] by {
        assert [last][1..] == [];
      }
    }
  }

  /**
   * The decode loop: decode each non-null account in order and keep the ones some
   * filter matches; a decode that throws ends the scan.
   */
  method CollectMatching(nonNullInfos: seq<AccountInfo>, deserialize: seq<bv8> -> Option<Metadata>, filters: seq<Filter>)
    returns (tokenInfoList: Option<seq<AccountInfo>>)
    requires forall i :: 0 <= i < |nonNullInfos| ==> nonNullInfos[i].account.Some?
    ensures tokenInfoList == MatchingInfos(nonNullInfos, deserialize, filters)
  {
    var list: seq<AccountInfo> := [];
    for i := 0 to |nonNullInfos|
      invariant MatchingInfos(nonNullInfos[..i], deserialize, filters) == Some(list)
    {
      ghost var next := nonNullInfos[..i + 1];
      assert next[..i] == nonNullInfos[..i] && next[i] == nonNullInfos[i];
      var metadata := DecodeMetadata(deserialize, nonNullInfos[i].account.value);
      if metadata.None? {
        MatchingInfosFailure(nonNullInfos, deserialize, filters);
        return None;
      }
      if FindFilter(metadata.value, filters).Some? {
        list := list + [nonNullInfos[i]];
      }
    }
    assert nonNullInfos[..|nonNullInfos|] == nonNullInfos;
    return Some(list);
  }

  // ---------------------------------------------------------------------------
  // Per wallet, and over all wallets
  // ---------------------------------------------------------------------------

  /** The NFT candidates of a wallet with their metadata addresses, as the loop sees them. */
  function Candidates(ledger: Ledger, derive: PublicKey -> PublicKey, wallet: PublicKey): seq<ProgramAddress>
    requires wallet in ledger.tokenAccounts
  {
    ProgramAddresses(PotentialNfts(ledger.tokenAccounts[wallet]), derive)
  }

  /** The fetched metadata account of each candidate, paired with the candidate. */
  function FetchedInfos(ledger: Ledger, derive: PublicKey -> PublicKey, wallet: PublicKey): seq<AccountInfo>
    requires wallet in ledger.tokenAccounts
  {
    var programAddresses := Candidates(ledger, derive, wallet);
    Pair(GetMultipleAccountsInfo(ledger.accounts, Programs(programAddresses)), programAddresses)
  }

  /**
   * The count for one wallet: the number of its candidates whose metadata account
   * exists, decodes and matches a filter; `None` when its token-account lookup or a
   * decode throws.
   */
  function WalletCount(ledger: Ledger, derive: PublicKey -> PublicKey, deserialize: seq<bv8> -> Option<Metadata>,
                       wallet: PublicKey, filters: seq<Filter>): (r: Option<nat>)
    ensures r.None? <==>
              || wallet !in ledger.tokenAccounts
              || exists x :: x in FetchedInfos(ledger, derive, wallet) && x.account.Some? &&
                               deserialize(x.account.value).None?
    ensures r.Some? ==>
              wallet in ledger.tokenAccounts &&
              r.value == |Kept(FetchedInfos(ledger, derive, wallet), deserialize, filters)|
  {
    if wallet !in ledger.tokenAccounts then None
    else
      var infos := FetchedInfos(ledger, derive, wallet);
      var nonNull := NonNull(infos);
      MatchingInfosFailure(nonNull, deserialize, filters);
      MatchingInfosExact(nonNull, deserialize, filters);
      KeptOfNonNull(infos, deserialize, filters);
      match MatchingInfos(nonNull, deserialize, filters)
      case None => None
      case Some(list) => Some(|list|)
  }

  /** A wallet's count never exceeds its number of NFT candidates, nor its number of token accounts. */
  lemma CountBoundedByCandidates(ledger: Ledger, derive: PublicKey -> PublicKey, deserialize: seq<bv8> -> Option<Metadata>,
                                 wallet: PublicKey, filters: seq<Filter>)
    requires WalletCount(ledger, derive, deserialize, wallet, filters).Some?
    ensures wallet in ledger.tokenAccounts
    ensures WalletCount(ledger, derive, deserialize, wallet, filters).value <= |Candidates(ledger, derive, wallet)|
              <= |ledger.tokenAccounts[wallet]|
  {
  }

  /** The whole promise: a count per wallet, in wallet order, or the fallback when any wallet's scan throws. */
  function AllCollectibles(ledger: Ledger, derive: PublicKey -> PublicKey, deserialize: seq<bv8> -> Option<Metadata>,
                           wallets: seq<PublicKey>, filters: seq<Filter>): (r: CollectiblesResult)
    ensures r.Sentinel? ==> r.value == FALLBACK_COUNT
    ensures r.Counts? ==> |r.counts| == |wallets|
    ensures r.Counts? ==>
              forall i :: 0 <= i < |wallets| ==> WalletCount(ledger, derive, deserialize, wallets[i], filters) == Some(r.counts[i])
  {
    if exists i :: 0 <= i < |wallets| && WalletCount(ledger, derive, deserialize, wallets[i], filters).None?
    then Sentinel(FALLBACK_COUNT)
    else Counts(seq(|wallets|, i requires 0 <= i < |wallets| =>
                      WalletCount(ledger, derive, deserialize, wallets[i], filters).value))
  }

  /** One wallet's part of the pipeline: candidates, paged fetch, pairing, decode loop. */
  method CountForWallet(ledger: Ledger, derive: PublicKey -> PublicKey, deserialize: seq<bv8> -> Option<Metadata>,
                        wallet: PublicKey, filters: seq<Filter>) returns (count: Option<nat>)
    ensures count == WalletCount(ledger, derive, deserialize, wallet, filters)
  {
    if wallet !in ledger.tokenAccounts {
      return None;
    }
    var mintAddresses := PotentialNfts(ledger.tokenAccounts[wallet]);
    var programAddresses := ProgramAddresses(mintAddresses, derive);
    var fetched, _ := FetchAccountInfos(ledger.accounts, Programs(programAddresses));
    var accountInfos := Pair(fetched, programAddresses);
    var nonNullInfos := NonNull(accountInfos);
    var tokenInfoList := CollectMatching(nonNullInfos, deserialize, filters);
    if tokenInfoList.None? {
      return None;
    }
    return Some(|tokenInfoList.value|);
  }

  /** `getAllCollectibles`: every wallet's count in wallet order, or 3 once anything throws. */
  method GetAllCollectibles(ledger: Ledger, derive: PublicKey -> PublicKey, deserialize: seq<bv8> -> Option<Metadata>,
                            wallets: seq<PublicKey>, filters: seq<Filter>) returns (r: CollectiblesResult)
    ensures r == AllCollectibles(ledger, derive, deserialize, wallets, filters)
  {
    var nfts: seq<nat> := [];
    for i := 0 to |wallets|
      invariant |nfts| == i
      invariant forall j :: 0 <= j < i ==> WalletCount(ledger, derive, deserialize, wallets[j], filters) == Some(nfts[j])
    {
      var count := CountForWallet(ledger, derive, deserialize, wallets[i], filters);
      if count.None? {
        assert WalletCount(ledger, derive, deserialize, wallets[i], filters).None?;
        return Sentinel(FALLBACK_COUNT);
      }
      nfts := nfts + [count.value];
    }
    ghost var all := AllCollectibles(ledger, derive, deserialize, wallets, filters);
    assert all.Counts? by {
      assert forall j :: 0 <= j < |wallets| ==> WalletCount(ledger, derive, deserialize, wallets[j], filters).Some?;
    }
    assert all.counts == nfts;
    return Counts(nfts);
  }

  /** The fallback appears exactly when some wallet's scan throws. */
  lemma CollectiblesShape(ledger: Ledger, derive: PublicKey -> PublicKey, deserialize: seq<bv8> -> Option<Metadata>,
                          wallets: seq<PublicKey>, filters: seq<Filter>)
    ensures AllCollectibles(ledger, derive, deserialize, wallets, filters).Sentinel? <==>
              exists w :: w in wallets && WalletCount(ledger, derive, deserialize, w, filters).None?
  {
    if exists w :: w in wallets && WalletCount(ledger, derive, deserialize, w, filters).None? {
      var w :| w in wallets && WalletCount(ledger, derive, deserialize, w, filters).None?;
      var i :| 0 <= i < |wallets| && wallets[i] == w;
    }
  }
}
