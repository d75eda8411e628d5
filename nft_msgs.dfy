/** x/nft/msgs.go: the stateless checks on the nft module's messages.
    Each `ValidateBasic` runs its checks in a fixed order and reports the
    first that fails. */
module NftMsgs {
  import opened Common

  datatype MsgSend = MsgSend(classId: string, id: string, sender: string, receiver: string)
  {
    function ValidateBasic(env: Env): (r: Option<Error>)
      ensures r.None? <==>
        && env.validClassId(classId) && env.validNftId(id)
        && env.parseAddress(sender).Ok? && env.parseAddress(receiver).Ok?
      ensures !env.validClassId(classId) ==> r == Some(Wrapped(InvalidId, "Invalid class id (" + classId + ")"))
      ensures env.validClassId(classId) && !env.validNftId(id) ==>
        r == Some(Wrapped(InvalidId, "Invalid nft id (" + id + ")"))
      ensures env.validClassId(classId) && env.validNftId(id) && env.parseAddress(sender).Err? ==>
        r == Some(Wrapped(InvalidAddress, "Invalid sender address (" + sender + ")"))
      ensures env.validClassId(classId) && env.validNftId(id) && env.parseAddress(sender).Ok?
              && env.parseAddress(receiver).Err? ==>
        r == Some(Wrapped(InvalidAddress, "Invalid receiver address (" + receiver + ")"))
    {
      if !env.validClassId(classId) then Some(Wrapped(InvalidId, "Invalid class id (" + classId + ")"))
      else if !env.validNftId(id) then Some(Wrapped(InvalidId, "Invalid nft id (" + id + ")"))
      else if env.parseAddress(sender).Err? then
        Some(Wrapped(InvalidAddress, "Invalid sender address (" + sender + ")"))
      else if env.parseAddress(receiver).Err? then
        Some(Wrapped(InvalidAddress, "Invalid receiver address (" + receiver + ")"))
      else None
    }

    /** The one signer is the sender; an unparsable sender gives the empty
        address, the parse error being dropped. */
    function GetSigners(env: Env): (r: seq<Address>)
      ensures |r| == 1
      ensures r[0] == (if env.parseAddress(sender).Ok? then env.parseAddress(sender).value else "")
    {
      match env.parseAddress(sender)
      case Ok(signer) => [signer]
      case Err(_) => [""]
    }
  }

  datatype MsgIssueClass = MsgIssueClass(
    id: string, name: string, symbol: string, description: string, uri: string, issuer: string)
  {
    function ValidateBasic(env: Env): (r: Option<Error>)
      ensures AllSpace(issuer) ==> r == Some(Wrapped(InvalidAddress, "missing sender address"))
      ensures !AllSpace(issuer) ==>
        (r.None? <==> env.parseAddress(issuer).Ok?) &&
        (r.Some? ==> r == Some(Wrapped(InvalidAddress, "failed to parse address: " + issuer)))
    {
      TrimSpaceEmptyIff(issuer);
      if TrimSpace(issuer) == "" then Some(Wrapped(InvalidAddress, "missing sender address"))
      else if env.parseAddress(issuer).Err? then
        Some(Wrapped(InvalidAddress, "failed to parse address: " + issuer))
      else None
    }

    /** Panics (here `None`) when the issuer does not parse. */
    function GetSigners(env: Env): (r: Option<seq<Address>>)
      ensures r.Some? <==> env.parseAddress(issuer).Ok?
      ensures r.Some? ==> r.value == [env.parseAddress(issuer).value]
    {
      match env.parseAddress(issuer)
      case Ok(a) => Some([a])
      case Err(_) => None
    }
  }

  datatype MsgMintNFT = MsgMintNFT(
    classId: string, id: string, uri: string, uriHash: string, minter: string, receiver: string)
  {
    /** Only the minter is checked. */
    function ValidateBasic(env: Env): (r: Option<Error>)
      ensures r.None? <==> env.parseAddress(minter).Ok?
      ensures r.Some? ==> r == Some(Wrapped(InvalidAddress, "invalid minter address"))
    {
      if env.parseAddress(minter).Err? then Some(Wrapped(InvalidAddress, "invalid minter address"))
      else None
    }

    /** Panics (here `None`) when the minter does not parse. */
    function GetSigners(env: Env): (r: Option<seq<Address>>)
      ensures r.Some? <==> env.parseAddress(minter).Ok?
      ensures r.Some? ==> r.value == [env.parseAddress(minter).value]
    {
      match env.parseAddress(minter)
      case Ok(a) => Some([a])
      case Err(_) => None
    }
  }

  /** An id failure of `MsgSend` is reported as `ErrInvalidID`, an address
      failure as `ErrInvalidAddress`. */
  lemma SendErrorCodes(env: Env, m: MsgSend)
    ensures var r := m.ValidateBasic(env);
      && (r.Some? && r.value.code == InvalidId <==> !env.validClassId(m.classId) || !env.validNftId(m.id))
      && (r.Some? && r.value.code == InvalidAddress <==>
            env.validClassId(m.classId) && env.validNftId(m.id) &&
            (env.parseAddress(m.sender).Err? || env.parseAddress(m.receiver).Err?))
  {
  }

  /** `MsgMintNFT` ignores its class id, id, uri, uri hash and receiver. */
  lemma MintNftValidationIgnoresAllButMinter(env: Env, m: MsgMintNFT, m': MsgMintNFT)
    requires m.minter == m'.minter
    ensures m.ValidateBasic(env) == m'.ValidateBasic(env)
  {
  }

  // ---------------------------------------------------------------------
  // strings.TrimSpace

  /** `unicode.IsSpace`. */
  predicate IsSpace(c: char) {
    || c == '\t' || c == '\n' || c == '\U{000B}' || c == '\U{000C}' || c == '\r' || c == ' '
    || c == '\U{0085}' || c == '\U{00A0}' || c == '\U{1680}'
    || ('\U{2000}' <= c <= '\U{200A}')
    || c == '\U{2028}' || c == '\U{2029}' || c == '\U{202F}' || c == '\U{205F}' || c == '\U{3000}'
  }

  predicate AllSpace(s: string) {
    forall i | 0 <= i < |s| :: IsSpace(s[i])
  }

  /** The first index at or after `i` that does not hold white space, or `|s|`. */
  function SkipSpace(s: string, i: nat): (k: nat)
    requires i <= |s|
    ensures i <= k <= |s|
    ensures forall j | i <= j < k :: IsSpace(s[j])
    ensures k < |s| ==> !IsSpace(s[k])
    decreases |s| - i
  {
    if i < |s| && IsSpace(s[i]) then SkipSpace(s, i + 1) else i
  }

  /** The end of `s[..j]` once its trailing white space is dropped. */
  function SkipSpaceBack(s: string, j: nat): (k: nat)
    requires j <= |s|
    ensures k <= j
    ensures forall m | k <= m < j :: IsSpace(s[m])
    ensures k > 0 ==> !IsSpace(s[k - 1])
  {
    if j > 0 && IsSpace(s[j - 1]) then SkipSpaceBack(s, j - 1) else j
  }

  /** Leading white space removed: a suffix of `s` that does not start with
      white space, everything cut off being white space. */
  function TrimLeft(s: string): (r: string)
    ensures |r| <= |s| && r == s[|s| - |r|..]
    ensures forall i | 0 <= i < |s| - |r| :: IsSpace(s[i])
    ensures |r| > 0 ==> !IsSpace(r[0])
  {
    s[SkipSpace(s, 0)..]
  }

  /** Trailing white space removed: a prefix of `s` that does not end with
      white space, everything cut off being white space. */
  function TrimRight(s: string): (r: string)
    ensures |r| <= |s| && r == s[..|r|]
    ensures forall i | |r| <= i < |s| :: IsSpace(s[i])
    ensures |r| > 0 ==> !IsSpace(r[|r| - 1])
  {
    s[..SkipSpaceBack(s, |s|)]
  }

  /** `strings.TrimSpace`: leading and trailing white space removed. */
  function TrimSpace(s: string): (r: string)
    ensures |s| - |TrimLeft(s)| + |r| <= |s|
    ensures r == s[|s| - |TrimLeft(s)|..|s| - |TrimLeft(s)| + |r|]
    ensures forall i | 0 <= i < |s| - |TrimLeft(s)| :: IsSpace(s[i])
    ensures forall i | |s| - |TrimLeft(s)| + |r| <= i < |s| :: IsSpace(s[i])
    ensures |r| > 0 ==> !IsSpace(r[0]) && !IsSpace(r[|r| - 1])
  {
    var l := TrimLeft(s);
    TrimmedSlice(s, l, TrimRight(l));
    TrimRight(l)
  }

  /** A prefix `r` of a suffix `l` of `s` is a slice of `s`; with the trims'
      contracts as hypotheses, it is cut out of `s` by white space only. */
  lemma TrimmedSlice(s: string, l: string, r: string)
    requires |l| <= |s| && l == s[|s| - |l|..]
    requires |r| <= |l| && r == l[..|r|]
    requires forall i | |r| <= i < |l| :: IsSpace(l[i])
    requires |l| > 0 ==> !IsSpace(l[0])
    ensures r == s[|s| - |l|..|s| - |l| + |r|]
    ensures forall i | |s| - |l| + |r| <= i < |s| :: IsSpace(s[i])
    ensures |r| > 0 ==> !IsSpace(r[0])
  {
    var a := |s| - |l|;
    forall i | a + |r| <= i < |s| ensures IsSpace(s[i]) {
      assert s[i] == l[i - a];
    }
    if |r| > 0 {
      assert r[0] == l[0];
    }
  }

  /** The check `strings.TrimSpace(s) == ""` holds exactly for strings made
      only of white space (the empty string included). */
  lemma TrimSpaceEmptyIff(s: string)
    ensures TrimSpace(s) == "" <==> AllSpace(s)
  {
    var l := TrimLeft(s);
    if |l| > 0 {
      // the first character kept is not white space, so TrimRight keeps it
      assert l[0] == s[|s| - |l|];
    }
  }
}
