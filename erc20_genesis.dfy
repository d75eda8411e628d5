/** x/erc20/genesis.go: importing and exporting the erc20 module's state,
    its parameters and its token-pair table with the two reverse indexes
    (denom to pair id, contract to pair id). */
module Erc20Genesis {
  import opened Common

  /** Who owns the ERC-20 contract. */
  datatype Owner = OwnerUnspecified | OwnerModule | OwnerExternal

  /** The erc20 bridge record. */
  datatype TokenPair = TokenPair(erc20Address: string, denom: string, enabled: bool, contractOwner: Owner)
  {
    /** `GetID`: the hash of the address and denom joined by '|'. */
    function GetID(env: Env): seq<bv8> {
      env.tmhashSum(erc20Address + "|" + denom)
    }

    function GetERC20Contract(env: Env): EthAddress {
      env.hexToAddress(erc20Address)
    }
  }

  datatype Params = Params(enableErc20: bool, enableEvmHook: bool)

  datatype GenesisState = GenesisState(params: Params, tokenPairs: seq<TokenPair>)

  // ---------------------------------------------------------------------
  // Writing a sequence of entries into a table, one after the other

  /** The table after writing `val(t)` under `key(t)` for each `t` of `s`
      in order. */
  function Put<K, V, T>(m: map<K, V>, s: seq<T>, key: T -> K, val: T -> V): map<K, V>
    decreases |s|
  {
    if |s| == 0 then m
    else Put(m, s[..|s| - 1], key, val)[key(s[|s| - 1]) := val(s[|s| - 1])]
  }

  /** Writing one more entry. */
  lemma PutSnoc<K, V, T>(m: map<K, V>, s: seq<T>, t: T, key: T -> K, val: T -> V)
    ensures Put(m, s + [t], key, val) == Put(m, s, key, val)[key(t) := val(t)]
  {
    assert (s + [t])[..|s|] == s;
  }

  /** Every entry of `s` leaves its key in the table, and the value there is
      that of the last entry with that key. */
  lemma {:induction false} PutLastWins<K, V, T>(m: map<K, V>, s: seq<T>, key: T -> K, val: T -> V, i: nat)
    requires i < |s|
    requires forall j | i < j < |s| :: key(s[j]) != key(s[i])
    ensures key(s[i]) in Put(m, s, key, val)
    ensures Put(m, s, key, val)[key(s[i])] == val(s[i])
    decreases |s|
  {
    if i < |s| - 1 {
      var s' := s[..|s| - 1];
      assert forall j | i < j < |s'| :: s'[j] == s[j];
      PutLastWins(m, s', key, val, i);
    }
  }

  /** A key no entry writes keeps its old value, or stays absent. */
  lemma {:induction false} PutUntouched<K, V, T>(m: map<K, V>, s: seq<T>, key: T -> K, val: T -> V, k: K)
    requires forall j | 0 <= j < |s| :: key(s[j]) != k
    ensures k in Put(m, s, key, val) <==> k in m
    ensures k in m ==> Put(m, s, key, val)[k] == m[k]
    decreases |s|
  {
    if |s| > 0 {
      var s' := s[..|s| - 1];
      assert forall j | 0 <= j < |s'| :: s'[j] == s[j];
      PutUntouched(m, s', key, val, k);
    }
  }

  /** The keys afterwards are the old keys and those of the entries. */
  lemma {:induction false} PutKeys<K, V, T>(m: map<K, V>, s: seq<T>, key: T -> K, val: T -> V)
    ensures Put(m, s, key, val).Keys == m.Keys + set j | 0 <= j < |s| :: key(s[j])
    decreases |s|
  {
    if |s| > 0 {
      var s' := s[..|s| - 1];
      PutKeys(m, s', key, val);
      assert (set j | 0 <= j < |s| :: key(s[j])) == (set j | 0 <= j < |s'| :: key(s'[j])) + {key(s[|s| - 1])} by {
        forall j | 0 <= j < |s'| ensures s'[j] == s[j] { }
      }
    }
  }

  // The three tables `InitGenesis` fills, as key and value functions.

  function PairId(env: Env): TokenPair -> seq<bv8> {
    (p: TokenPair) => p.GetID(env)
  }

  function PairItself(): TokenPair -> TokenPair {
    (p: TokenPair) => p
  }

  function PairDenom(): TokenPair -> string {
    (p: TokenPair) => p.denom
  }

  function PairContract(env: Env): TokenPair -> EthAddress {
    (p: TokenPair) => p.GetERC20Contract(env)
  }

  /** Pairs are stored under their own id. */
  predicate StoredUnderOwnId(env: Env, pairs: map<seq<bv8>, TokenPair>) {
    forall id | id in pairs :: pairs[id].GetID(env) == id
  }

  /** Writing pairs under their ids keeps every pair under its own id. */
  lemma {:induction false} PutPairsStoredUnderOwnId(env: Env, m: map<seq<bv8>, TokenPair>, s: seq<TokenPair>)
    requires StoredUnderOwnId(env, m)
    ensures StoredUnderOwnId(env, Put(m, s, PairId(env), PairItself()))
    decreases |s|
  {
    if |s| > 0 {
      PutPairsStoredUnderOwnId(env, m, s[..|s| - 1]);
    }
  }

  /** After import each pair is stored under its id, unless a later pair
      has the same id, in which case the later one is stored. */
  lemma InitGenesisStoresPair(env: Env, m: map<seq<bv8>, TokenPair>, pairs: seq<TokenPair>, i: nat)
    requires i < |pairs|
    requires forall j | i < j < |pairs| :: pairs[j].GetID(env) != pairs[i].GetID(env)
    ensures var t := Put(m, pairs, PairId(env), PairItself());
      pairs[i].GetID(env) in t && t[pairs[i].GetID(env)] == pairs[i]
  {
    PutLastWins(m, pairs, PairId(env), PairItself(), i);
  }

  /** After import the denom index sends each pair's denom to the id of the
      last pair with that denom. */
  lemma InitGenesisIndexesDenom(env: Env, m: map<string, seq<bv8>>, pairs: seq<TokenPair>, i: nat)
    requires i < |pairs|
    requires forall j | i < j < |pairs| :: pairs[j].denom != pairs[i].denom
    ensures var t := Put(m, pairs, PairDenom(), PairId(env));
      pairs[i].denom in t && t[pairs[i].denom] == pairs[i].GetID(env)
  {
    PutLastWins(m, pairs, PairDenom(), PairId(env), i);
  }

  /** After import the contract index sends each pair's contract to the id
      of the last pair with that contract. */
  lemma InitGenesisIndexesContract(env: Env, m: map<EthAddress, seq<bv8>>, pairs: seq<TokenPair>, i: nat)
    requires i < |pairs|
    requires forall j | i < j < |pairs| :: pairs[j].GetERC20Contract(env) != pairs[i].GetERC20Contract(env)
    ensures var t := Put(m, pairs, PairContract(env), PairId(env));
      pairs[i].GetERC20Contract(env) in t && t[pairs[i].GetERC20Contract(env)] == pairs[i].GetID(env)
  {
    PutLastWins(m, pairs, PairContract(env), PairId(env), i);
  }

  // ---------------------------------------------------------------------
  // The erc20 keeper's tables

  class Keeper {
    var params: Params
    var tokenPairs: map<seq<bv8>, TokenPair>
    var denomMap: map<string, seq<bv8>>
    var erc20Map: map<EthAddress, seq<bv8>>

    /** Pairs sit under their own ids and both indexes point at stored pairs. */
    predicate Valid(env: Env)
      reads this
    {
      && StoredUnderOwnId(env, tokenPairs)
      && (forall d | d in denomMap :: denomMap[d] in tokenPairs)
      && (forall c | c in erc20Map :: erc20Map[c] in tokenPairs)
    }

    constructor (params: Params)
      ensures this.params == params
      ensures tokenPairs == map[] && denomMap == map[] && erc20Map == map[]
    {
      this.params := params;
      tokenPairs, denomMap, erc20Map := map[], map[], map[];
    }

    method SetParams(p: Params)
      modifies this
      ensures params == p
      ensures tokenPairs == old(tokenPairs) && denomMap == old(denomMap) && erc20Map == old(erc20Map)
    {
      params := p;
    }

    method SetTokenPair(env: Env, pair: TokenPair)
      modifies this
      ensures tokenPairs == old(tokenPairs)[pair.GetID(env) := pair]
      ensures params == old(params) && denomMap == old(denomMap) && erc20Map == old(erc20Map)
    {
      tokenPairs := tokenPairs[pair.GetID(env) := pair];
    }

    method SetDenomMap(denom: string, id: seq<bv8>)
      modifies this
      ensures denomMap == old(denomMap)[denom := id]
      ensures params == old(params) && tokenPairs == old(tokenPairs) && erc20Map == old(erc20Map)
    {
      denomMap := denomMap[denom := id];
    }

    method SetERC20Map(contract: EthAddress, id: seq<bv8>)
      modifies this
      ensures erc20Map == old(erc20Map)[contract := id]
      ensures params == old(params) && tokenPairs == old(tokenPairs) && denomMap == old(denomMap)
    {
      erc20Map := erc20Map[contract := id];
    }

    /** Every stored pair, once each: `ids` lists the id each pair was read
        from, every stored id exactly once (the store's iteration order is
        not modelled). */
    method GetAllTokenPairs() returns (pairs: seq<TokenPair>, ghost ids: seq<seq<bv8>>)
      ensures |ids| == |pairs| == |tokenPairs|
      ensures forall i | 0 <= i < |ids| :: ids[i] in tokenPairs && pairs[i] == tokenPairs[ids[i]]
      ensures forall i, j | 0 <= i < j < |ids| :: ids[i] != ids[j]
      ensures forall id | id in tokenPairs :: id in ids
      ensures forall p :: p in pairs <==> p in tokenPairs.Values
    {
      pairs, ids := [], [];
      var rest := tokenPairs.Keys;
      while rest != {}
        invariant rest <= tokenPairs.Keys
        invariant forall id | id in tokenPairs :: id in rest <==> id !in ids
        invariant |ids| == |pairs| && |ids| + |rest| == |tokenPairs|
        invariant forall i | 0 <= i < |ids| :: ids[i] in tokenPairs && pairs[i] == tokenPairs[ids[i]]
        invariant forall i, j | 0 <= i < j < |ids| :: ids[i] != ids[j]
        decreases |rest|
      {
        var id :| id in rest;
        pairs, ids := pairs + [tokenPairs[id]], ids + [id];
        rest := rest - {id};
      }
      forall p | p in tokenPairs.Values ensures p in pairs {
        var id :| id in tokenPairs && tokenPairs[id] == p;
        var i :| 0 <= i < |ids| && ids[i] == id;
        assert pairs[i] == p;
      }
    }
  }

  /** `InitGenesis`: stores the parameters, then aborts (`aborted`) when the
      module account is missing, else writes every pair and both indexes. */
  method InitGenesis(k: Keeper, env: Env, moduleAccountSet: bool, data: GenesisState) returns (aborted: bool)
    requires k.Valid(env)
    modifies k
    ensures k.Valid(env)
    ensures k.params == data.params
    ensures aborted == !moduleAccountSet
    ensures aborted ==> k.tokenPairs == old(k.tokenPairs) && k.denomMap == old(k.denomMap) && k.erc20Map == old(k.erc20Map)
    ensures !aborted ==>
      && k.tokenPairs == Put(old(k.tokenPairs), data.tokenPairs, PairId(env), PairItself())
      && k.denomMap == Put(old(k.denomMap), data.tokenPairs, PairDenom(), PairId(env))
      && k.erc20Map == Put(old(k.erc20Map), data.tokenPairs, PairContract(env), PairId(env))
  {
    k.SetParams(data.params);

    // the erc20 module account must exist at genesis
    if !moduleAccountSet {
      return true;
    }

    var pairs := data.tokenPairs;
    for i := 0 to |pairs|
      invariant k.Valid(env)
      invariant k.params == data.params
      invariant k.tokenPairs == Put(old(k.tokenPairs), pairs[..i], PairId(env), PairItself())
      invariant k.denomMap == Put(old(k.denomMap), pairs[..i], PairDenom(), PairId(env))
      invariant k.erc20Map == Put(old(k.erc20Map), pairs[..i], PairContract(env), PairId(env))
    {
      var pair := pairs[i];
      var id := pair.GetID(env);
      k.SetTokenPair(env, pair);
      k.SetDenomMap(pair.denom, id);
      k.SetERC20Map(pair.GetERC20Contract(env), id);
      assert pairs[..i + 1] == pairs[..i] + [pair];
      PutSnoc(old(k.tokenPairs), pairs[..i], pair, PairId(env), PairItself());
      PutSnoc(old(k.denomMap), pairs[..i], pair, PairDenom(), PairId(env));
      PutSnoc(old(k.erc20Map), pairs[..i], pair, PairContract(env), PairId(env));
    }
    assert pairs[..|pairs|] == pairs;
    aborted := false;
  }

  /** `ExportGenesis`: the stored parameters and every stored pair, once
      each (`ids` as in `GetAllTokenPairs`). */
  method ExportGenesis(k: Keeper) returns (g: GenesisState, ghost ids: seq<seq<bv8>>)
    ensures g.params == k.params
    ensures |ids| == |g.tokenPairs| == |k.tokenPairs|
    ensures forall i | 0 <= i < |ids| :: ids[i] in k.tokenPairs && g.tokenPairs[i] == k.tokenPairs[ids[i]]
    ensures forall i, j | 0 <= i < j < |ids| :: ids[i] != ids[j]
    ensures forall id | id in k.tokenPairs :: id in ids
    ensures forall p :: p in g.tokenPairs <==> p in k.tokenPairs.Values
  {
    var pairs;
    pairs, ids := k.GetAllTokenPairs();
    g := GenesisState(k.params, pairs);
  }
}
