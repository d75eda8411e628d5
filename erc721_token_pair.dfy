/** x/erc721/types/token_pair.go: the bridge record binding a native NFT
    class to an ERC-721 contract. */
module Erc721TokenPair {
  import opened Common

  /** Who owns the ERC-721 contract. */
  datatype Owner = OwnerUnspecified | OwnerModule | OwnerExternal

  datatype TokenPair = TokenPair(erc721Address: string, classId: string, enabled: bool, contractOwner: Owner)
  {
    /** The text the id is hashed from. */
    function IdPreimage(): string {
      erc721Address + "|" + classId
    }

    /** `GetID`: the hash of the address and class id joined by '|'. */
    function GetID(env: Env): seq<bv8> {
      env.tmhashSum(IdPreimage())
    }

    function GetERC721Contract(env: Env): EthAddress {
      env.hexToAddress(erc721Address)
    }

    /** The class id is checked as a denom first, then the address; the
        first failure is returned as it is. */
    function Validate(env: Env): (r: Option<Error>)
      ensures r.None? <==> env.validateDenom(classId).None? && env.validateEthAddress(erc721Address).None?
      ensures env.validateDenom(classId).Some? ==> r == env.validateDenom(classId)
      ensures env.validateDenom(classId).None? ==> r == env.validateEthAddress(erc721Address)
    {
      if env.validateDenom(classId).Some? then env.validateDenom(classId)
      else env.validateEthAddress(erc721Address)
    }

    /** The contract belongs to the erc721 module: the class is canonical. */
    predicate IsNativeNFT() {
      contractOwner == OwnerModule
    }

    /** The contract is externally owned: the ERC-721 token is canonical. */
    predicate IsNativeERC721() {
      contractOwner == OwnerExternal
    }
  }

  /** `NewTokenPair`: the `enabled` argument is ignored; a new pair is
      always enabled. */
  function NewTokenPair(env: Env, erc721Address: EthAddress, classID: string, enabled: bool,
                        contractOwner: Owner): (tp: TokenPair)
    ensures tp.enabled
    ensures tp.erc721Address == env.hexString(erc721Address)
    ensures tp.classId == classID && tp.contractOwner == contractOwner
  {
    TokenPair(env.hexString(erc721Address), classID, true, contractOwner)
  }

  /** The `enabled` argument makes no difference. */
  lemma NewTokenPairIgnoresEnabled(env: Env, a: EthAddress, classID: string, owner: Owner)
    ensures NewTokenPair(env, a, classID, true, owner) == NewTokenPair(env, a, classID, false, owner)
  {
  }

  /** When the address codec round-trips, the pair gives back the contract
      it was made from. */
  lemma NewTokenPairContract(env: Env, a: EthAddress, classID: string, enabled: bool, owner: Owner)
    requires env.hexToAddress(env.hexString(a)) == a
    ensures NewTokenPair(env, a, classID, enabled, owner).GetERC721Contract(env) == a
  {
  }

  /** The id depends on the address and class id only. */
  lemma IdIgnoresFlags(env: Env, tp: TokenPair, tp': TokenPair)
    requires tp.erc721Address == tp'.erc721Address && tp.classId == tp'.classId
    ensures tp.GetID(env) == tp'.GetID(env)
  {
  }

  /** For addresses without a '|' (hex addresses never have one), the text
      hashed into the id determines the address and the class id. */
  lemma IdPreimageInjective(tp: TokenPair, tp': TokenPair)
    requires '|' !in tp.erc721Address && '|' !in tp'.erc721Address
    requires tp.IdPreimage() == tp'.IdPreimage()
    ensures tp.erc721Address == tp'.erc721Address && tp.classId == tp'.classId
  {
    var a, a' := tp.erc721Address, tp'.erc721Address;
    var s := tp.IdPreimage();
    if |a| < |a'| {
      SeparatorInLongerAddress(a, tp.classId, a', tp'.classId);
      assert false;
    } else if |a'| < |a| {
      SeparatorInLongerAddress(a', tp'.classId, a, tp.classId);
      assert false;
    }
    assert a == s[..|a|] == a';
    assert tp.classId == s[|a| + 1..] == tp'.classId;
  }

  /** If two joined texts agree but the first address is shorter, the
      second address holds the separator. */
  lemma SeparatorInLongerAddress(a: string, c: string, a': string, c': string)
    requires a + "|" + c == a' + "|" + c'
    requires |a| < |a'|
    ensures '|' in a'
  {
    assert (a + "|" + c)[|a|] == '|';
    assert (a' + "|" + c')[|a|] == a'[|a|];
  }

  /** Without that restriction on the address the joined text is ambiguous. */
  lemma IdPreimageNeedsPlainAddress()
    ensures TokenPair("a|b", "c", true, OwnerModule).IdPreimage() == TokenPair("a", "b|c", true, OwnerModule).IdPreimage()
  {
  }

  /** A pair never counts as both native NFT and native ERC-721; with a
      specified owner it is exactly one of them. */
  lemma OwnerKindsExclusive(tp: TokenPair)
    ensures !(tp.IsNativeNFT() && tp.IsNativeERC721())
    ensures tp.contractOwner != OwnerUnspecified ==> tp.IsNativeNFT() != tp.IsNativeERC721()
  {
  }
}
