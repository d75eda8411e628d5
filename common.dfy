/** Shared vocabulary: results, error codes, account identities and the
    foreign collaborators (address codecs, identifier validators, hashing)
    that the modelled code calls but does not define. */
module Common {

  datatype Option<+T> = None | Some(value: T) {
    function GetOr(default: T): T {
      match this
      case Some(v) => v
      case None => default
    }
  }

  /** Error codes of the Cosmos SDK and of the modules involved. */
  datatype Code =
    // sdkerrors
    | Unauthorized
    | InvalidAddress
    | UnknownExtensionOptions
    | UnknownRequest
    // x/collection types
    | UnknownNft
    | InvalidTokenId
    | InvalidDenom
    // x/nft types
    | InvalidId
    // the SDK's generic nft store
    | ClassExists
    | ClassNotExists
    | NftExists
    | NftNotExists

  /** `sdkerrors.Wrap(code, msg)` / `sdkerrors.Wrapf(code, format, args...)`, with
      the formatted message written out. */
  datatype Error = Wrapped(code: Code, msg: string)

  datatype Result<+T> = Ok(value: T) | Err(error: Error)

  /** An account, as the text `sdk.AccAddress.String()` gives; the empty
      address is the empty string. */
  type Address = string

  /** A 20-byte EVM contract address (`common.Address`). */
  type EthAddress = seq<bv8>

  /** The foreign functions the core relies on. Every property in this
      project holds for every choice of them. */
  datatype Env = Env(
    parseAddress: string -> Result<Address>,       // sdk.AccAddressFromBech32
    validClassId: string -> bool,                  // nft.ValidateClassID
    validNftId: string -> bool,                    // nft.ValidateNFTID
    validateDenom: string -> Option<Error>,        // sdk.ValidateDenom
    validateEthAddress: string -> Option<Error>,   // ethermint.ValidateAddress
    tmhashSum: string -> seq<bv8>,                 // tmhash.Sum over the string's bytes
    hexString: EthAddress -> string,               // common.Address.String
    hexToAddress: string -> EthAddress             // common.HexToAddress
  )
}
