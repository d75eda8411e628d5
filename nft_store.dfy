/** The generic NFT store both keepers wrap (the Cosmos SDK x/nft keeper):
    a class table, a token table and an owner table. Its behaviour is not
    part of the modelled repository; the semantics below are the small
    existence checks that store performs before each write. */
module NftStore {
  import opened Common

  /** Collection metadata packed into a class's `Data` field. */
  datatype DenomMetadata = DenomMetadata(
    creator: Address, schema: string, mintRestricted: bool, updateRestricted: bool)

  /** Token metadata packed into a token's `Data` field. */
  datatype NftMetadata = NftMetadata(name: string, description: string)

  /** What unmarshalling an empty `Any` yields. */
  const NoDenomMetadata := DenomMetadata("", "", false, false)
  const NoNftMetadata := NftMetadata("", "")

  /** `nft.Class`; `data == None` is a class saved without a `Data` field. */
  datatype Class = Class(
    id: string, name: string, symbol: string, description: string,
    uri: string, uriHash: string, data: Option<DenomMetadata>)

  datatype NftKey = NftKey(classId: string, id: string)

  /** `nft.NFT`; the owner lives in a separate table. */
  datatype Nft = Nft(
    classId: string, id: string, uri: string, uriHash: string, data: Option<NftMetadata>)
  {
    function Key(): NftKey { NftKey(classId, id) }
  }

  /** The value `GetNFT` returns beside `false`. */
  const NoNft := Nft("", "", "", "", None)

  /** The result of an operation: the state afterwards and the error, if any. */
  datatype Outcome = Outcome(state: State, err: Option<Error>)

  datatype State = State(
    classes: map<string, Class>,
    nfts: map<NftKey, Nft>,
    owners: map<NftKey, Address>)
  {
    /** Every class is stored under its id, every token under its own key
        inside an existing class, and every token has exactly one owner. */
    predicate Valid() {
      && (forall id | id in classes :: classes[id].id == id)
      && (forall k | k in nfts :: nfts[k].Key() == k && k.classId in classes)
      && owners.Keys == nfts.Keys
    }

    predicate HasNft(classId: string, id: string) {
      NftKey(classId, id) in nfts
    }

    /** `GetOwner`: the empty address when the token does not exist. */
    function OwnerOf(classId: string, id: string): (a: Address)
      ensures NftKey(classId, id) in owners ==> a == owners[NftKey(classId, id)]
      ensures NftKey(classId, id) !in owners ==> a == ""
    {
      var k := NftKey(classId, id);
      if k in owners then owners[k] else ""
    }

    /** `SaveClass`: refuses an id already taken. */
    function SaveClass(c: Class): (r: Outcome)
      ensures Valid() ==> r.state.Valid()
      ensures r.err.Some? ==> r.state == this
    {
      if c.id in classes then Outcome(this, Some(Wrapped(ClassExists, c.id)))
      else Outcome(this.(classes := classes[c.id := c]), None)
    }

    /** `UpdateClass`: overwrites an existing class record. */
    function UpdateClass(c: Class): (r: Outcome)
      ensures Valid() ==> r.state.Valid()
      ensures r.err.Some? ==> r.state == this
    {
      if c.id !in classes then Outcome(this, Some(Wrapped(ClassNotExists, c.id)))
      else Outcome(this.(classes := classes[c.id := c]), None)
    }

    /** `Mint`: a new token in an existing class, owned by `receiver`. */
    function Mint(n: Nft, receiver: Address): (r: Outcome)
      ensures Valid() ==> r.state.Valid()
      ensures r.err.Some? ==> r.state == this
    {
      if n.classId !in classes then Outcome(this, Some(Wrapped(ClassNotExists, n.classId)))
      else if n.Key() in nfts then Outcome(this, Some(Wrapped(NftExists, n.id)))
      else Outcome(this.(nfts := nfts[n.Key() := n], owners := owners[n.Key() := receiver]), None)
    }

    /** `Update`: overwrites an existing token record; the owner is kept. */
    function Update(n: Nft): (r: Outcome)
      ensures Valid() ==> r.state.Valid()
      ensures r.err.Some? ==> r.state == this
    {
      if n.classId !in classes then Outcome(this, Some(Wrapped(ClassNotExists, n.classId)))
      else if n.Key() !in nfts then Outcome(this, Some(Wrapped(NftNotExists, n.id)))
      else Outcome(this.(nfts := nfts[n.Key() := n]), None)
    }

    /** `Transfer`: gives an existing token to `receiver`. */
    function Transfer(classId: string, id: string, receiver: Address): (r: Outcome)
      ensures Valid() ==> r.state.Valid()
      ensures r.err.Some? ==> r.state == this
    {
      var k := NftKey(classId, id);
      if classId !in classes then Outcome(this, Some(Wrapped(ClassNotExists, classId)))
      else if k !in nfts then Outcome(this, Some(Wrapped(NftNotExists, id)))
      else Outcome(this.(owners := owners[k := receiver]), None)
    }

    /** `Burn`: removes an existing token and its owner entry. */
    function Burn(classId: string, id: string): (r: Outcome)
      ensures Valid() ==> r.state.Valid()
      ensures r.err.Some? ==> r.state == this
    {
      var k := NftKey(classId, id);
      if classId !in classes then Outcome(this, Some(Wrapped(ClassNotExists, classId)))
      else if k !in nfts then Outcome(this, Some(Wrapped(NftNotExists, id)))
      else Outcome(this.(nfts := nfts - {k}, owners := owners - {k}), None)
    }
  }

  /** The store as a mutable object. */
  class Store {
    var classes: map<string, Class>
    var nfts: map<NftKey, Nft>
    var owners: map<NftKey, Address>

    function View(): State
      reads this
    {
      State(classes, nfts, owners)
    }

    predicate Valid()
      reads this
    {
      View().Valid()
    }

    constructor ()
      ensures Valid() && View() == State(map[], map[], map[])
    {
      classes, nfts, owners := map[], map[], map[];
    }

    method GetNft(classId: string, id: string) returns (n: Nft, found: bool)
      ensures found == View().HasNft(classId, id)
      ensures n == if found then nfts[NftKey(classId, id)] else NoNft
    {
      var k := NftKey(classId, id);
      found := k in nfts;
      n := if found then nfts[k] else NoNft;
    }

    method GetOwner(classId: string, id: string) returns (a: Address)
      ensures a == View().OwnerOf(classId, id)
    {
      var k := NftKey(classId, id);
      a := if k in owners then owners[k] else "";
    }

    method SaveClass(c: Class) returns (err: Option<Error>)
      requires Valid()
      modifies this
      ensures Valid()
      ensures Outcome(View(), err) == old(View()).SaveClass(c)
    {
      if c.id in classes {
        return Some(Wrapped(ClassExists, c.id));
      }
      classes := classes[c.id := c];
      err := None;
    }

    method UpdateClass(c: Class) returns (err: Option<Error>)
      requires Valid()
      modifies this
      ensures Valid()
      ensures Outcome(View(), err) == old(View()).UpdateClass(c)
    {
      if c.id !in classes {
        return Some(Wrapped(ClassNotExists, c.id));
      }
      classes := classes[c.id := c];
      err := None;
    }

    method Mint(n: Nft, receiver: Address) returns (err: Option<Error>)
      requires Valid()
      modifies this
      ensures Valid()
      ensures Outcome(View(), err) == old(View()).Mint(n, receiver)
    {
      if n.classId !in classes {
        return Some(Wrapped(ClassNotExists, n.classId));
      }
      if n.Key() in nfts {
        return Some(Wrapped(NftExists, n.id));
      }
      nfts := nfts[n.Key() := n];
      owners := owners[n.Key() := receiver];
      err := None;
    }

    method Update(n: Nft) returns (err: Option<Error>)
      requires Valid()
      modifies this
      ensures Valid()
      ensures Outcome(View(), err) == old(View()).Update(n)
    {
      if n.classId !in classes {
        return Some(Wrapped(ClassNotExists, n.classId));
      }
      if n.Key() !in nfts {
        return Some(Wrapped(NftNotExists, n.id));
      }
      nfts := nfts[n.Key() := n];
      err := None;
    }

    method Transfer(classId: string, id: string, receiver: Address) returns (err: Option<Error>)
      requires Valid()
      modifies this
      ensures Valid()
      ensures Outcome(View(), err) == old(View()).Transfer(classId, id, receiver)
    {
      var k := NftKey(classId, id);
      if classId !in classes {
        return Some(Wrapped(ClassNotExists, classId));
      }
      if k !in nfts {
        return Some(Wrapped(NftNotExists, id));
      }
      owners := owners[k := receiver];
      err := None;
    }

    method Burn(classId: string, id: string) returns (err: Option<Error>)
      requires Valid()
      modifies this
      ensures Valid()
      ensures Outcome(View(), err) == old(View()).Burn(classId, id)
    {
      var k := NftKey(classId, id);
      if classId !in classes {
        return Some(Wrapped(ClassNotExists, classId));
      }
      if k !in nfts {
        return Some(Wrapped(NftNotExists, id));
      }
      nfts := nfts - {k};
      owners := owners - {k};
      err := None;
    }
  }
}
