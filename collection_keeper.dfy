/** x/collection/keeper/keeper.go: the collection ("denom") policy layer
    over the generic NFT store. Each operation is given twice: as a function
    from the store's state to an `Outcome` (used by the lemmas below), and as
    a method of `Keeper` written step by step like the Go code and proved to
    agree with that function. */
module Collection {
  import opened Common
  import opened NftStore

  /** The marker a caller passes for "leave this field as it is". */
  const DoNotModify: string := "[do-not-modify]"

  predicate Modified(s: string) {
    s != DoNotModify
  }

  /** A class viewed as a collection denom. */
  datatype Denom = Denom(
    id: string, name: string, symbol: string, schema: string,
    creator: Address, mintRestricted: bool, updateRestricted: bool)

  /** `GetDenomInfo`: the class with its metadata unpacked; a class saved
      without metadata reads as unrestricted with no creator. */
  function GetDenomInfo(s: State, denomID: string): (r: Result<Denom>)
    ensures r.Ok? <==> denomID in s.classes
  {
    if denomID !in s.classes then Err(Wrapped(InvalidDenom, "denom ID " + denomID + " not exists"))
    else
      var c := s.classes[denomID];
      var md := c.data.GetOr(NoDenomMetadata);
      Ok(Denom(c.id, c.name, c.symbol, md.schema, md.creator, md.mintRestricted, md.updateRestricted))
  }

  /** `Authorize`: only the current owner of the token passes. */
  function Authorize(s: State, denomID: string, tokenID: string, owner: Address): (r: Option<Error>)
    ensures r.None? <==> owner == s.OwnerOf(denomID, tokenID)
    ensures r.Some? ==> r.value == Wrapped(Unauthorized, owner)
  {
    if owner == s.OwnerOf(denomID, tokenID) then None else Some(Wrapped(Unauthorized, owner))
  }

  /** The token's metadata after applying the requested name and description. */
  function MergedMetadata(t: Nft, tokenNm: string, tokenData: string): NftMetadata {
    var md := t.data.GetOr(NoNftMetadata);
    NftMetadata(
      if Modified(tokenNm) then tokenNm else md.name,
      if Modified(tokenData) then tokenData else md.description)
  }

  /** The token record `EditNFT` writes back. */
  function EditedNft(t: Nft, tokenNm: string, tokenURI: string, tokenData: string): Nft {
    t.(uri := if Modified(tokenURI) then tokenURI else t.uri,
       data := if Modified(tokenNm) || Modified(tokenData) then Some(MergedMetadata(t, tokenNm, tokenData)) else t.data)
  }

  /** The token record `TransferOwnership` writes back when some field changes:
      its metadata is always re-packed. */
  function TransferredNft(t: Nft, tokenNm: string, tokenURI: string, tokenData: string): Nft {
    t.(uri := if Modified(tokenURI) then tokenURI else t.uri,
       data := Some(MergedMetadata(t, tokenNm, tokenData)))
  }

  function IssueDenomSpec(s: State, id: string, name: string, schema: string, symbol: string,
                          creator: Address, mintRestricted: bool, updateRestricted: bool): (r: Outcome)
    ensures s.Valid() ==> r.state.Valid()
    ensures r.err.Some? ==> r.state == s
  {
    s.SaveClass(Class(id, name, symbol, "", "", "",
                      Some(DenomMetadata(creator, schema, mintRestricted, updateRestricted))))
  }

  function MintNFTSpec(s: State, denomID: string, tokenID: string, tokenNm: string, tokenURI: string,
                       tokenData: string, sender: Address, receiver: Address): (r: Outcome)
    ensures s.Valid() ==> r.state.Valid()
    ensures r.err.Some? ==> r.state == s
  {
    match GetDenomInfo(s, denomID)
    case Err(e) => Outcome(s, Some(e))
    case Ok(denom) =>
      if denom.mintRestricted && denom.creator != sender then
        Outcome(s, Some(Wrapped(Unauthorized, sender + " is not allowed to mint NFT of denom " + denomID)))
      else
        s.Mint(Nft(denomID, tokenID, tokenURI, "", Some(NftMetadata(tokenNm, tokenData))), receiver)
  }

  function EditNFTSpec(s: State, denomID: string, tokenID: string, tokenNm: string, tokenURI: string,
                       tokenData: string, owner: Address): (r: Outcome)
    ensures s.Valid() ==> r.state.Valid()
    ensures r.err.Some? ==> r.state == s
  {
    match GetDenomInfo(s, denomID)
    case Err(e) => Outcome(s, Some(e))
    case Ok(denom) =>
      if denom.updateRestricted then
        Outcome(s, Some(Wrapped(Unauthorized, "nobody can update the NFT under this denom " + denomID)))
      else if Authorize(s, denomID, tokenID, owner).Some? then
        Outcome(s, Authorize(s, denomID, tokenID, owner))
      else if !s.HasNft(denomID, tokenID) then
        Outcome(s, Some(Wrapped(UnknownNft, "nft ID " + tokenID + " not exists")))
      else
        s.Update(EditedNft(s.nfts[NftKey(denomID, tokenID)], tokenNm, tokenURI, tokenData))
  }

  function TransferOwnershipSpec(s: State, denomID: string, tokenID: string, tokenNm: string,
                                 tokenURI: string, tokenData: string,
                                 srcOwner: Address, dstOwner: Address): (r: Outcome)
    ensures s.Valid() ==> r.state.Valid()
    ensures r.err.Some? ==> r.state == s
  {
    if !s.HasNft(denomID, tokenID) then
      Outcome(s, Some(Wrapped(InvalidTokenId, "nft ID " + tokenID + " not exists")))
    else if Authorize(s, denomID, tokenID, srcOwner).Some? then
      Outcome(s, Authorize(s, denomID, tokenID, srcOwner))
    else match GetDenomInfo(s, denomID)
      case Err(e) => Outcome(s, Some(e))
      case Ok(denom) =>
        var changed := Modified(tokenURI) || Modified(tokenNm) || Modified(tokenData);
        if denom.updateRestricted && changed then
          Outcome(s, Some(Wrapped(Unauthorized, "It is restricted to update NFT under this denom " + denom.id)))
        else if !changed then
          s.Transfer(denomID, tokenID, dstOwner)
        else
          var u := s.Update(TransferredNft(s.nfts[NftKey(denomID, tokenID)], tokenNm, tokenURI, tokenData));
          if u.err.Some? then u else u.state.Transfer(denomID, tokenID, dstOwner)
  }

  function BurnNFTSpec(s: State, denomID: string, tokenID: string, owner: Address): (r: Outcome)
    ensures s.Valid() ==> r.state.Valid()
    ensures r.err.Some? ==> r.state == s
  {
    if Authorize(s, denomID, tokenID, owner).Some? then Outcome(s, Authorize(s, denomID, tokenID, owner))
    else s.Burn(denomID, tokenID)
  }

  function TransferDenomOwnerSpec(s: State, denomID: string, srcOwner: Address, dstOwner: Address): (r: Outcome)
    ensures s.Valid() ==> r.state.Valid()
    ensures r.err.Some? ==> r.state == s
  {
    match GetDenomInfo(s, denomID)
    case Err(e) => Outcome(s, Some(e))
    case Ok(denom) =>
      if srcOwner != denom.creator then
        Outcome(s, Some(Wrapped(Unauthorized, srcOwner + " is not allowed to transfer denom " + denomID)))
      else
        s.UpdateClass(Class(denom.id, denom.name, denom.symbol, "", "", "",
                            Some(DenomMetadata(dstOwner, denom.schema, denom.mintRestricted, denom.updateRestricted))))
  }

  // ---------------------------------------------------------------------
  // Properties of the operations

  /** Issuing a fresh id adds exactly one class, with empty description, uri
      and uri hash, that reads back as the given denom; an id already taken
      is refused and nothing changes. */
  lemma IssueDenomReadsBack(s: State, id: string, name: string, schema: string, symbol: string,
                            creator: Address, mintRestricted: bool, updateRestricted: bool)
    ensures var r := IssueDenomSpec(s, id, name, schema, symbol, creator, mintRestricted, updateRestricted);
      && (r.err.None? <==> id !in s.classes)
      && (r.err.Some? ==> r.err.value.code == ClassExists)
      && (r.err.None? ==>
            && GetDenomInfo(r.state, id) == Ok(Denom(id, name, symbol, schema, creator, mintRestricted, updateRestricted))
            && r.state.classes == s.classes[id := Class(id, name, symbol, "", "", "",
                                                        Some(DenomMetadata(creator, schema, mintRestricted, updateRestricted)))]
            && r.state.nfts == s.nfts && r.state.owners == s.owners)
  {
  }

  /** A mint-restricted denom refuses every sender but its creator, and no
      token is created. */
  lemma MintRestrictedRejectsNonCreator(s: State, denomID: string, tokenID: string, tokenNm: string,
                                        tokenURI: string, tokenData: string, sender: Address, receiver: Address)
    requires GetDenomInfo(s, denomID).Ok?
    requires GetDenomInfo(s, denomID).value.mintRestricted && GetDenomInfo(s, denomID).value.creator != sender
    ensures var r := MintNFTSpec(s, denomID, tokenID, tokenNm, tokenURI, tokenData, sender, receiver);
      r.err == Some(Wrapped(Unauthorized, sender + " is not allowed to mint NFT of denom " + denomID)) && r.state == s
  {
  }

  /** Minting succeeds exactly when the denom exists, the sender may mint in
      it and the token id is free; the new token is owned by `receiver`, has
      no uri hash, and carries the given uri, name and description. */
  lemma MintNFTCreatesToken(s: State, denomID: string, tokenID: string, tokenNm: string,
                            tokenURI: string, tokenData: string, sender: Address, receiver: Address)
    requires s.Valid()
    ensures var r := MintNFTSpec(s, denomID, tokenID, tokenNm, tokenURI, tokenData, sender, receiver);
      var k := NftKey(denomID, tokenID);
      && (r.err.None? <==>
            && denomID in s.classes
            && (GetDenomInfo(s, denomID).value.mintRestricted ==> GetDenomInfo(s, denomID).value.creator == sender)
            && k !in s.nfts)
      && (r.err.None? ==>
            && r.state.nfts == s.nfts[k := Nft(denomID, tokenID, tokenURI, "", Some(NftMetadata(tokenNm, tokenData)))]
            && r.state.owners == s.owners[k := receiver]
            && r.state.classes == s.classes)
  {
  }

  /** On an update-restricted denom editing fails, whoever asks and whether
      or not the token exists. */
  lemma EditRestrictedAlwaysFails(s: State, denomID: string, tokenID: string, tokenNm: string,
                                  tokenURI: string, tokenData: string, owner: Address)
    requires GetDenomInfo(s, denomID).Ok? && GetDenomInfo(s, denomID).value.updateRestricted
    ensures var r := EditNFTSpec(s, denomID, tokenID, tokenNm, tokenURI, tokenData, owner);
      r.err == Some(Wrapped(Unauthorized, "nobody can update the NFT under this denom " + denomID)) && r.state == s
  {
  }

  /** A successful edit changes exactly the token's modified fields; its
      owner, uri hash and identity stay, and so does everything else. */
  lemma EditNFTChangesOnlyModifiedFields(s: State, denomID: string, tokenID: string, tokenNm: string,
                                         tokenURI: string, tokenData: string, owner: Address)
    requires s.Valid()
    ensures var r := EditNFTSpec(s, denomID, tokenID, tokenNm, tokenURI, tokenData, owner);
      var k := NftKey(denomID, tokenID);
      && (r.err.None? <==>
            && denomID in s.classes && !GetDenomInfo(s, denomID).value.updateRestricted
            && k in s.nfts && s.owners[k] == owner)
      && (denomID in s.classes && !GetDenomInfo(s, denomID).value.updateRestricted && s.OwnerOf(denomID, tokenID) != owner
          ==> r.err == Some(Wrapped(Unauthorized, owner)))
      && (r.err.None? ==>
            var was := s.nfts[k];
            var now := r.state.nfts[k];
            var md := was.data.GetOr(NoNftMetadata);
            && r.state.classes == s.classes && r.state.owners == s.owners
            && r.state.nfts.Keys == s.nfts.Keys
            && (forall k' | k' in s.nfts && k' != k :: r.state.nfts[k'] == s.nfts[k'])
            && now.classId == denomID && now.id == tokenID && now.uriHash == was.uriHash
            && now.uri == (if Modified(tokenURI) then tokenURI else was.uri)
            && (!Modified(tokenNm) && !Modified(tokenData) ==> now.data == was.data)
            && (Modified(tokenNm) || Modified(tokenData) ==>
                  now.data == Some(NftMetadata(if Modified(tokenNm) then tokenNm else md.name,
                                               if Modified(tokenData) then tokenData else md.description))))
  {
  }

  /** Editing with every field left as it is succeeds for the owner and
      changes nothing. */
  lemma EditNothingIsNoOp(s: State, denomID: string, tokenID: string, owner: Address)
    requires s.Valid()
    requires denomID in s.classes && !GetDenomInfo(s, denomID).value.updateRestricted
    requires s.HasNft(denomID, tokenID) && s.OwnerOf(denomID, tokenID) == owner
    ensures EditNFTSpec(s, denomID, tokenID, DoNotModify, DoNotModify, DoNotModify, owner) == Outcome(s, None)
  {
    var k := NftKey(denomID, tokenID);
    assert EditedNft(s.nfts[k], DoNotModify, DoNotModify, DoNotModify) == s.nfts[k];
    assert s.nfts[k := s.nfts[k]] == s.nfts;
  }

  /** A pure ownership transfer (no field modified) is allowed even on an
      update-restricted denom, and only the owner changes. */
  lemma TransferWithoutEditsIgnoresUpdateRestriction(s: State, denomID: string, tokenID: string,
                                                     srcOwner: Address, dstOwner: Address)
    requires s.Valid()
    requires s.HasNft(denomID, tokenID) && s.OwnerOf(denomID, tokenID) == srcOwner
    ensures TransferOwnershipSpec(s, denomID, tokenID, DoNotModify, DoNotModify, DoNotModify, srcOwner, dstOwner)
         == Outcome(s.(owners := s.owners[NftKey(denomID, tokenID) := dstOwner]), None)
  {
  }

  /** A transfer that would also edit a field fails on an update-restricted
      denom, before anything is written. */
  lemma TransferWithEditsOnRestrictedFails(s: State, denomID: string, tokenID: string, tokenNm: string,
                                           tokenURI: string, tokenData: string,
                                           srcOwner: Address, dstOwner: Address)
    requires s.Valid()
    requires s.HasNft(denomID, tokenID) && s.OwnerOf(denomID, tokenID) == srcOwner
    requires GetDenomInfo(s, denomID).value.updateRestricted
    requires Modified(tokenURI) || Modified(tokenNm) || Modified(tokenData)
    ensures var r := TransferOwnershipSpec(s, denomID, tokenID, tokenNm, tokenURI, tokenData, srcOwner, dstOwner);
      r.err == Some(Wrapped(Unauthorized, "It is restricted to update NFT under this denom " + denomID)) && r.state == s
  {
  }

  /** A transfer succeeds exactly when the token exists, `srcOwner` owns it
      and no requested edit meets an update restriction; the receiver then
      owns it, and the record changes only in its modified fields. */
  lemma TransferOwnershipOutcome(s: State, denomID: string, tokenID: string, tokenNm: string,
                                 tokenURI: string, tokenData: string, srcOwner: Address, dstOwner: Address)
    requires s.Valid()
    ensures var r := TransferOwnershipSpec(s, denomID, tokenID, tokenNm, tokenURI, tokenData, srcOwner, dstOwner);
      var k := NftKey(denomID, tokenID);
      var changed := Modified(tokenURI) || Modified(tokenNm) || Modified(tokenData);
      && (r.err.None? <==>
            && k in s.nfts && s.owners[k] == srcOwner
            && !(GetDenomInfo(s, denomID).value.updateRestricted && changed))
      && (k !in s.nfts ==> r.err == Some(Wrapped(InvalidTokenId, "nft ID " + tokenID + " not exists")))
      && (k in s.nfts && s.owners[k] != srcOwner ==> r.err == Some(Wrapped(Unauthorized, srcOwner)))
      && (r.err.None? ==>
            && r.state.owners == s.owners[k := dstOwner]
            && r.state.classes == s.classes
            && r.state.nfts == s.nfts[k := if changed then TransferredNft(s.nfts[k], tokenNm, tokenURI, tokenData) else s.nfts[k]])
  {
  }

  /** Burning succeeds exactly when the caller owns an existing token and
      removes just that token. */
  lemma BurnNFTRemovesToken(s: State, denomID: string, tokenID: string, owner: Address)
    requires s.Valid()
    ensures var r := BurnNFTSpec(s, denomID, tokenID, owner);
      var k := NftKey(denomID, tokenID);
      && (r.err.None? <==> k in s.nfts && s.owners[k] == owner)
      && (s.OwnerOf(denomID, tokenID) != owner ==> r.err == Some(Wrapped(Unauthorized, owner)))
      && (r.err.None? ==> r.state == s.(nfts := s.nfts - {k}, owners := s.owners - {k}))
  {
  }

  /** Minting a token and burning it again as its receiver gives back the
      state before the mint. */
  lemma {:induction false} MintThenBurnRestores(s: State, denomID: string, tokenID: string, tokenNm: string,
                                                tokenURI: string, tokenData: string,
                                                sender: Address, receiver: Address)
    requires s.Valid()
    requires MintNFTSpec(s, denomID, tokenID, tokenNm, tokenURI, tokenData, sender, receiver).err.None?
    ensures var m := MintNFTSpec(s, denomID, tokenID, tokenNm, tokenURI, tokenData, sender, receiver);
      BurnNFTSpec(m.state, denomID, tokenID, receiver) == Outcome(s, None)
  {
    var k := NftKey(denomID, tokenID);
    var n := Nft(denomID, tokenID, tokenURI, "", Some(NftMetadata(tokenNm, tokenData)));
    MintNFTCreatesToken(s, denomID, tokenID, tokenNm, tokenURI, tokenData, sender, receiver);
    var m := MintNFTSpec(s, denomID, tokenID, tokenNm, tokenURI, tokenData, sender, receiver);
    assert m.state == s.(nfts := s.nfts[k := n], owners := s.owners[k := receiver]);
    assert k !in s.nfts && k !in s.owners;
    assert s.nfts[k := n] - {k} == s.nfts;
    assert s.owners[k := receiver] - {k} == s.owners;
  }

  /** Handing a denom over requires its creator; afterwards only the creator
      differs. The class's description, uri and uri hash are rewritten empty. */
  lemma TransferDenomOwnerKeepsDenom(s: State, denomID: string, srcOwner: Address, dstOwner: Address)
    requires s.Valid()
    ensures var r := TransferDenomOwnerSpec(s, denomID, srcOwner, dstOwner);
      && (r.err.None? <==> denomID in s.classes && GetDenomInfo(s, denomID).value.creator == srcOwner)
      && (denomID !in s.classes ==> r.err == Some(Wrapped(InvalidDenom, "denom ID " + denomID + " not exists")))
      && (denomID in s.classes && GetDenomInfo(s, denomID).value.creator != srcOwner ==>
            r.err == Some(Wrapped(Unauthorized, srcOwner + " is not allowed to transfer denom " + denomID)))
      && (r.err.None? ==>
            && GetDenomInfo(r.state, denomID) == Ok(GetDenomInfo(s, denomID).value.(creator := dstOwner))
            && r.state.nfts == s.nfts && r.state.owners == s.owners
            && r.state.classes.Keys == s.classes.Keys
            && (forall c | c in s.classes && c != denomID :: r.state.classes[c] == s.classes[c])
            && var c := r.state.classes[denomID]; c.description == "" && c.uri == "" && c.uriHash == "")
  {
  }

  /** After a denom changes hands, the mint restriction is judged against
      the new creator. */
  lemma MintAfterDenomTransferUsesNewCreator(s: State, denomID: string, srcOwner: Address, dstOwner: Address,
                                             tokenID: string, tokenNm: string, tokenURI: string,
                                             tokenData: string, sender: Address, receiver: Address)
    requires s.Valid()
    requires TransferDenomOwnerSpec(s, denomID, srcOwner, dstOwner).err.None?
    requires GetDenomInfo(s, denomID).value.mintRestricted
    ensures var t := TransferDenomOwnerSpec(s, denomID, srcOwner, dstOwner).state;
      var r := MintNFTSpec(t, denomID, tokenID, tokenNm, tokenURI, tokenData, sender, receiver);
      && (sender != dstOwner ==> r.err.Some? && r.err.value.code == Unauthorized)
      && (sender == dstOwner ==> (r.err.None? <==> !t.HasNft(denomID, tokenID)))
  {
    TransferDenomOwnerKeepsDenom(s, denomID, srcOwner, dstOwner);
  }

  /** Issue "cats" restricted to creator A: B may not mint, A may mint
      "tom" for B, and B then owns it. */
  lemma CatsScenario(a: Address, b: Address)
    requires a != b
    ensures var s0 := State(map[], map[], map[]);
      var s1 := IssueDenomSpec(s0, "cats", "Cats", "", "CAT", a, true, false);
      var byB := MintNFTSpec(s1.state, "cats", "tom", "Tom", "", "", b, b);
      var byA := MintNFTSpec(s1.state, "cats", "tom", "Tom", "", "", a, b);
      && s1.err.None?
      && byB.err.Some? && byB.err.value.code == Unauthorized && byB.state == s1.state
      && byA.err.None? && byA.state.OwnerOf("cats", "tom") == b
  {
  }

  // ---------------------------------------------------------------------
  // The keeper

  class Keeper {
    const nk: Store

    constructor (nk: Store)
      ensures this.nk == nk
    {
      this.nk := nk;
    }

    method IssueDenom(id: string, name: string, schema: string, symbol: string,
                      creator: Address, mintRestricted: bool, updateRestricted: bool)
      returns (err: Option<Error>)
      requires nk.Valid()
      modifies nk
      ensures nk.Valid()
      ensures Outcome(nk.View(), err)
           == IssueDenomSpec(old(nk.View()), id, name, schema, symbol, creator, mintRestricted, updateRestricted)
    {
      var denomMetadata := DenomMetadata(creator, schema, mintRestricted, updateRestricted);
      err := nk.SaveClass(Class(id, name, symbol, "", "", "", Some(denomMetadata)));
    }

    method MintNFT(denomID: string, tokenID: string, tokenNm: string, tokenURI: string, tokenData: string,
                   sender: Address, receiver: Address) returns (err: Option<Error>)
      requires nk.Valid()
      modifies nk
      ensures nk.Valid()
      ensures Outcome(nk.View(), err)
           == MintNFTSpec(old(nk.View()), denomID, tokenID, tokenNm, tokenURI, tokenData, sender, receiver)
    {
      var denom := GetDenomInfo(nk.View(), denomID);
      if denom.Err? {
        return Some(denom.error);
      }
      if denom.value.mintRestricted && denom.value.creator != sender {
        return Some(Wrapped(Unauthorized, sender + " is not allowed to mint NFT of denom " + denomID));
      }
      var nftMetadata := NftMetadata(tokenNm, tokenData);
      err := nk.Mint(Nft(denomID, tokenID, tokenURI, "", Some(nftMetadata)), receiver);
    }

    method EditNFT(denomID: string, tokenID: string, tokenNm: string, tokenURI: string, tokenData: string,
                   owner: Address) returns (err: Option<Error>)
      requires nk.Valid()
      modifies nk
      ensures nk.Valid()
      ensures Outcome(nk.View(), err)
           == EditNFTSpec(old(nk.View()), denomID, tokenID, tokenNm, tokenURI, tokenData, owner)
    {
      var denom := GetDenomInfo(nk.View(), denomID);
      if denom.Err? {
        return Some(denom.error);
      }
      if denom.value.updateRestricted {
        // nobody may update a token of this denom
        return Some(Wrapped(Unauthorized, "nobody can update the NFT under this denom " + denomID));
      }
      var authErr := Authorize(nk.View(), denomID, tokenID, owner);
      if authErr.Some? {
        return authErr;
      }
      var token, exist := nk.GetNft(denomID, tokenID);
      if !exist {
        return Some(Wrapped(UnknownNft, "nft ID " + tokenID + " not exists"));
      }
      if Modified(tokenURI) {
        token := token.(uri := tokenURI);
      }
      if Modified(tokenNm) || Modified(tokenData) {
        var nftMetadata := token.data.GetOr(NoNftMetadata);
        if Modified(tokenNm) {
          nftMetadata := nftMetadata.(name := tokenNm);
        }
        if Modified(tokenData) {
          nftMetadata := nftMetadata.(description := tokenData);
        }
        token := token.(data := Some(nftMetadata));
      }
      err := nk.Update(token);
    }

    method TransferOwnership(denomID: string, tokenID: string, tokenNm: string, tokenURI: string,
                             tokenData: string, srcOwner: Address, dstOwner: Address)
      returns (err: Option<Error>)
      requires nk.Valid()
      modifies nk
      ensures nk.Valid()
      ensures Outcome(nk.View(), err)
           == TransferOwnershipSpec(old(nk.View()), denomID, tokenID, tokenNm, tokenURI, tokenData, srcOwner, dstOwner)
    {
      var token, exist := nk.GetNft(denomID, tokenID);
      if !exist {
        return Some(Wrapped(InvalidTokenId, "nft ID " + tokenID + " not exists"));
      }
      var authErr := Authorize(nk.View(), denomID, tokenID, srcOwner);
      if authErr.Some? {
        return authErr;
      }
      var denom := GetDenomInfo(nk.View(), denomID);
      if denom.Err? {
        // where the Go code returns this error: unreachable, since a stored
        // token's class exists in a consistent store
        assert false;
      }
      var changed := false;
      if Modified(tokenURI) {
        token := token.(uri := tokenURI);
        changed := true;
      }
      var nftMetadata := token.data.GetOr(NoNftMetadata);
      if Modified(tokenNm) {
        nftMetadata := nftMetadata.(name := tokenNm);
        changed := true;
      }
      if Modified(tokenData) {
        nftMetadata := nftMetadata.(description := tokenData);
        changed := true;
      }
      if denom.value.updateRestricted && changed {
        return Some(Wrapped(Unauthorized, "It is restricted to update NFT under this denom " + denom.value.id));
      }
      if changed {
        token := token.(data := Some(nftMetadata));
        err := nk.Update(token);
        if err.Some? {
          return;
        }
      }
      err := nk.Transfer(denomID, tokenID, dstOwner);
    }

    method BurnNFT(denomID: string, tokenID: string, owner: Address) returns (err: Option<Error>)
      requires nk.Valid()
      modifies nk
      ensures nk.Valid()
      ensures Outcome(nk.View(), err) == BurnNFTSpec(old(nk.View()), denomID, tokenID, owner)
    {
      var authErr := Authorize(nk.View(), denomID, tokenID, owner);
      if authErr.Some? {
        return authErr;
      }
      err := nk.Burn(denomID, tokenID);
    }

    method TransferDenomOwner(denomID: string, srcOwner: Address, dstOwner: Address) returns (err: Option<Error>)
      requires nk.Valid()
      modifies nk
      ensures nk.Valid()
      ensures Outcome(nk.View(), err) == TransferDenomOwnerSpec(old(nk.View()), denomID, srcOwner, dstOwner)
    {
      var denom := GetDenomInfo(nk.View(), denomID);
      if denom.Err? {
        return Some(denom.error);
      }
      if srcOwner != denom.value.creator {
        return Some(Wrapped(Unauthorized, srcOwner + " is not allowed to transfer denom " + denomID));
      }
      var denomMetadata := DenomMetadata(dstOwner, denom.value.schema, denom.value.mintRestricted,
                                         denom.value.updateRestricted);
      err := nk.UpdateClass(Class(denom.value.id, denom.value.name, denom.value.symbol, "", "", "",
                                  Some(denomMetadata)));
    }
  }
}
