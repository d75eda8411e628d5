/** x/nft/keeper/msg_server.go: the nft module's message handlers, over the
    same generic store. As in the collection keeper, each handler is a
    function on the store's state (for the lemmas) and a method written like
    the Go code (proved to agree with it). */
module NftMsgServer {
  import opened Common
  import opened NftStore
  import opened NftMsgs

  /** The typed event a successful `Send` emits. */
  datatype EventSend = EventSend(classId: string, id: string, sender: string, receiver: string)

  function SendSpec(s: State, env: Env, msg: MsgSend): (r: (Outcome, Option<EventSend>))
    ensures s.Valid() ==> r.0.state.Valid()
    ensures r.0.err.Some? ==> r.0.state == s && r.1.None?
  {
    match env.parseAddress(msg.sender)
    case Err(e) => (Outcome(s, Some(e)), None)
    case Ok(sender) =>
      if s.OwnerOf(msg.classId, msg.id) != sender then
        (Outcome(s, Some(Wrapped(Unauthorized, sender + " is not the owner of nft " + msg.id))), None)
      else match env.parseAddress(msg.receiver)
        case Err(e) => (Outcome(s, Some(e)), None)
        case Ok(receiver) =>
          var t := s.Transfer(msg.classId, msg.id, receiver);
          if t.err.Some? then (t, None)
          else (t, Some(EventSend(msg.classId, msg.id, msg.sender, msg.receiver)))
  }

  function IssueClassSpec(s: State, msg: MsgIssueClass): (r: Outcome)
    ensures s.Valid() ==> r.state.Valid()
    ensures r.err.Some? ==> r.state == s
  {
    s.SaveClass(Class(msg.id, msg.name, msg.symbol, msg.description, msg.uri, msg.issuer, None))
  }

  /** Who receives a minted token: the minter unless a receiver is named. */
  function MintReceiver(env: Env, msg: MsgMintNFT): (r: Result<Address>)
    ensures msg.receiver == "" ==> r == env.parseAddress(msg.minter)
    ensures msg.receiver != "" && env.parseAddress(msg.minter).Ok? ==> r == env.parseAddress(msg.receiver)
    ensures env.parseAddress(msg.minter).Err? ==> r == env.parseAddress(msg.minter)
  {
    match env.parseAddress(msg.minter)
    case Err(e) => Err(e)
    case Ok(minter) => if msg.receiver == "" then Ok(minter) else env.parseAddress(msg.receiver)
  }

  function MintNFTSpec(s: State, env: Env, msg: MsgMintNFT): (r: Outcome)
    ensures s.Valid() ==> r.state.Valid()
    ensures r.err.Some? ==> r.state == s
  {
    match MintReceiver(env, msg)
    case Err(e) => Outcome(s, Some(e))
    case Ok(receiver) => s.Mint(Nft(msg.classId, msg.id, msg.uri, msg.uriHash, None), receiver)
  }

  // ---------------------------------------------------------------------
  // Properties of the handlers

  /** Only the current owner may send a token; anyone else is refused and
      nothing changes. */
  lemma SendRejectsNonOwner(s: State, env: Env, msg: MsgSend)
    requires env.parseAddress(msg.sender).Ok?
    requires s.OwnerOf(msg.classId, msg.id) != env.parseAddress(msg.sender).value
    ensures var (o, ev) := SendSpec(s, env, msg);
      && o.err == Some(Wrapped(Unauthorized, env.parseAddress(msg.sender).value + " is not the owner of nft " + msg.id))
      && o.state == s && ev.None?
  {
  }

  /** The checks run in order: the sender is parsed before ownership is
      checked, and the receiver after. */
  lemma SendCheckOrder(s: State, env: Env, msg: MsgSend)
    ensures var (o, ev) := SendSpec(s, env, msg);
      && (env.parseAddress(msg.sender).Err? ==> o.err == Some(env.parseAddress(msg.sender).error))
      && (env.parseAddress(msg.sender).Ok? && s.OwnerOf(msg.classId, msg.id) != env.parseAddress(msg.sender).value
          ==> o.err.Some? && o.err.value.code == Unauthorized)
      && (env.parseAddress(msg.sender).Ok? && s.OwnerOf(msg.classId, msg.id) == env.parseAddress(msg.sender).value
          && env.parseAddress(msg.receiver).Err?
          ==> o == Outcome(s, Some(env.parseAddress(msg.receiver).error)))
  {
  }

  /** A send succeeds exactly when both addresses parse and the sender owns
      an existing token; the receiver then owns it, nothing else changes,
      and the event carries the message's own fields. */
  lemma SendTransfers(s: State, env: Env, msg: MsgSend)
    requires s.Valid()
    ensures var (o, ev) := SendSpec(s, env, msg);
      var k := NftKey(msg.classId, msg.id);
      && (o.err.None? <==>
            && env.parseAddress(msg.sender).Ok? && env.parseAddress(msg.receiver).Ok?
            && k in s.nfts && s.owners[k] == env.parseAddress(msg.sender).value)
      && (o.err.None? ==>
            && o.state == s.(owners := s.owners[k := env.parseAddress(msg.receiver).value])
            && ev == Some(EventSend(msg.classId, msg.id, msg.sender, msg.receiver)))
  {
  }

  /** `IssueClass` stores the message's fields, with the issuer in the class's
      uri-hash slot and no metadata. */
  lemma IssueClassStoresMessage(s: State, msg: MsgIssueClass)
    ensures var r := IssueClassSpec(s, msg);
      && (r.err.None? <==> msg.id !in s.classes)
      && (r.err.None? ==>
            && r.state.classes == s.classes[msg.id := Class(msg.id, msg.name, msg.symbol, msg.description,
                                                            msg.uri, msg.issuer, None)]
            && r.state.nfts == s.nfts && r.state.owners == s.owners)
  {
  }

  /** Minting succeeds exactly when the receiver is found (the minter, or
      the named receiver), the class exists and the id is free. The new token
      carries the message's class id, id, uri and uri hash, and is owned by
      the named receiver or else the minter. Nothing else changes. */
  lemma MintNFTOwner(s: State, env: Env, msg: MsgMintNFT)
    requires s.Valid()
    ensures var r := MintNFTSpec(s, env, msg);
      var k := NftKey(msg.classId, msg.id);
      && (r.err.None? <==> MintReceiver(env, msg).Ok? && msg.classId in s.classes && k !in s.nfts)
      && (r.err.None? ==>
            && env.parseAddress(msg.minter).Ok?
            && MintReceiver(env, msg).value == (if msg.receiver == "" then env.parseAddress(msg.minter).value
                                                else env.parseAddress(msg.receiver).value)
            && r.state == s.(nfts := s.nfts[k := Nft(msg.classId, msg.id, msg.uri, msg.uriHash, None)],
                             owners := s.owners[k := MintReceiver(env, msg).value]))
  {
  }

  // ---------------------------------------------------------------------
  // The handlers

  class Keeper {
    const nk: Store

    constructor (nk: Store)
      ensures this.nk == nk
    {
      this.nk := nk;
    }

    method Send(env: Env, msg: MsgSend) returns (err: Option<Error>, event: Option<EventSend>)
      requires nk.Valid()
      modifies nk
      ensures nk.Valid()
      ensures (Outcome(nk.View(), err), event) == SendSpec(old(nk.View()), env, msg)
    {
      event := None;
      var sender := env.parseAddress(msg.sender);
      if sender.Err? {
        return Some(sender.error), None;
      }
      var owner := nk.GetOwner(msg.classId, msg.id);
      if owner != sender.value {
        return Some(Wrapped(Unauthorized, sender.value + " is not the owner of nft " + msg.id)), None;
      }
      var receiver := env.parseAddress(msg.receiver);
      if receiver.Err? {
        return Some(receiver.error), None;
      }
      err := nk.Transfer(msg.classId, msg.id, receiver.value);
      if err.Some? {
        return;
      }
      event := Some(EventSend(msg.classId, msg.id, msg.sender, msg.receiver));
    }

    method IssueClass(msg: MsgIssueClass) returns (err: Option<Error>)
      requires nk.Valid()
      modifies nk
      ensures nk.Valid()
      ensures Outcome(nk.View(), err) == IssueClassSpec(old(nk.View()), msg)
    {
      err := nk.SaveClass(Class(msg.id, msg.name, msg.symbol, msg.description, msg.uri, msg.issuer, None));
    }

    method MintNFT(env: Env, msg: MsgMintNFT) returns (err: Option<Error>)
      requires nk.Valid()
      modifies nk
      ensures nk.Valid()
      ensures Outcome(nk.View(), err) == MintNFTSpec(old(nk.View()), env, msg)
    {
      var receiver := env.parseAddress(msg.minter);
      if receiver.Err? {
        return Some(receiver.error);
      }
      if msg.receiver != "" {
        receiver := env.parseAddress(msg.receiver);
        if receiver.Err? {
          return Some(receiver.error);
        }
      }
      err := nk.Mint(Nft(msg.classId, msg.id, msg.uri, msg.uriHash, None), receiver.value);
    }
  }
}
