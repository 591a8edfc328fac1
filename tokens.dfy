/** Access-token lifecycle of the meeting routes: the expiry test, the resolution of
    the caller's token from a request header or from the session, and the session
    writes that sign the caller in and out. */
module Tokens {

  /** The session's `ztoken` slot. `Unset` is a missing or null slot (it fails the
      truthiness test), `Empty` is the record `{}` written when a credential expires,
      and `Credential` is the record written after the OAuth exchange. */
  datatype Slot =
    | Unset
    | Empty
    | Credential(accessToken: string, refreshToken: string, expiresIn: int, updateAt: int)

  /** Outcome of one token resolution: the token handed on, and the slot afterwards. */
  datatype Resolution = Resolution(token: string, slot: Slot)

  /** Outcome of a series of token resolutions: the tokens in order, and the final slot. */
  datatype Replayed = Replayed(tokens: seq<string>, slot: Slot)

  /** The expiry test: a credential issued at `updateAt` with lifetime `expiresIn`
      is still valid only while its deadline lies strictly after `now`. */
  function IsExpired(expiresIn: int, updateAt: int, now: int): (expired: bool)
    ensures expired <==> now >= updateAt + expiresIn
  {
    !(expiresIn + updateAt > now)
  }

  /** Whether the slot holds a credential that has not expired at `now`. The empty
      record has no expiry fields; adding two missing numbers gives NaN, the
      comparison fails, and the record reads as expired. */
  function IsLive(slot: Slot, now: int): (live: bool)
    ensures live <==> slot.Credential? && now < slot.updateAt + slot.expiresIn
    ensures slot == Empty ==> !live
  {
    slot.Credential? && !IsExpired(slot.expiresIn, slot.updateAt, now)
  }

  /** The token a request carrying header token `header` obtains at `now` from the
      session slot `slot`, together with the slot left behind. */
  function Resolve(header: string, slot: Slot, now: int): (r: Resolution)
    // an explicit header token wins and the session is left alone
    ensures header != "" ==> r == Resolution(header, slot)
    // without one, the stored access token is handed on exactly while it is live
    ensures header == "" ==> r.token == (if IsLive(slot, now) then slot.accessToken else "")
    // the only write is clearing: a present but dead record becomes the empty record
    ensures r.slot == slot || r.slot == Empty
    ensures r.slot != slot <==> header == "" && slot.Credential? && !IsLive(slot, now)
    ensures header == "" && slot != Unset && !IsLive(slot, now) ==> r.slot == Empty
  {
    if header != "" then Resolution(header, slot)
    else
      match slot
      case Unset => Resolution("", Unset)
      case Empty => Resolution("", Empty)
      case Credential(accessToken, _, expiresIn, updateAt) =>
        if IsExpired(expiresIn, updateAt, now) then Resolution("", Empty)
        else Resolution(accessToken, slot)
  }

  /** Header-less requests arriving at the instants `nows`, one after another,
      each resolving its token from the slot the previous one left. */
  function Replay(slot: Slot, nows: seq<int>): (r: Replayed)
    ensures |r.tokens| == |nows|
    decreases |nows|
  {
    if nows == [] then Replayed([], slot)
    else
      var first := Resolve("", slot, nows[0]);
      var rest := Replay(first.slot, nows[1..]);
      Replayed([first.token] + rest.tokens, rest.slot)
  }

  /** Once cleared to the empty record, every later header-less request obtains the
      empty token and the slot stays the empty record: clearing is idempotent. */
  lemma {:induction false} ClearedStaysCleared(nows: seq<int>)
    ensures Replay(Empty, nows).slot == Empty
    ensures forall k :: 0 <= k < |nows| ==> Replay(Empty, nows).tokens[k] == ""
    decreases |nows|
  {
    if nows != [] {
      ClearedStaysCleared(nows[1..]);
      var rest := Replay(Empty, nows[1..]);
      assert Replay(Empty, nows) == Replayed([""] + rest.tokens, rest.slot);
    }
  }

  /** Expiry is final: once a stored record is found dead, no later header-less
      request gets a token back until the caller signs in again. */
  lemma {:induction false} ExpiryIsFinal(slot: Slot, nows: seq<int>)
    requires slot != Unset && nows != [] && !IsLive(slot, nows[0])
    ensures Replay(slot, nows).slot == Empty
    ensures forall k :: 0 <= k < |nows| ==> Replay(slot, nows).tokens[k] == ""
  {
    ClearedStaysCleared(nows[1..]);
    var rest := Replay(Empty, nows[1..]);
    assert Replay(slot, nows) == Replayed([""] + rest.tokens, rest.slot);
  }

  /** A live credential serves every header-less request made before its deadline
      with its access token, and is never touched. */
  lemma {:induction false} LiveUntilDeadline(slot: Slot, nows: seq<int>)
    requires slot.Credential?
    requires forall k :: 0 <= k < |nows| ==> nows[k] < slot.updateAt + slot.expiresIn
    ensures Replay(slot, nows).slot == slot
    ensures forall k :: 0 <= k < |nows| ==> Replay(slot, nows).tokens[k] == slot.accessToken
    decreases |nows|
  {
    if nows != [] {
      LiveUntilDeadline(slot, nows[1..]);
      var rest := Replay(slot, nows[1..]);
      assert Replay(slot, nows) == Replayed([slot.accessToken] + rest.tokens, rest.slot);
    }
  }

  /** The caller's session, whose `ztoken` slot the routes read and overwrite. */
  class Session {
    var ztoken: Slot

    constructor ()
      ensures ztoken == Unset
    {
      ztoken := Unset;
    }

    /** Resolves the caller's token: the header first, then the stored record,
        clearing the record in place when it has expired. */
    method GetAccessToken(header: string, now: int) returns (token: string)
      modifies this
      ensures Resolution(token, ztoken) == Resolve(header, old(ztoken), now)
    {
      if header != "" {
        return header;
      }
      if ztoken == Unset {
        return "";
      }
      var expired := match ztoken
        case Credential(_, _, expiresIn, updateAt) => IsExpired(expiresIn, updateAt, now)
        case _ => true;
      if expired {
        ztoken := Empty;
        return "";
      }
      token := ztoken.accessToken;
    }

    /** Stores the credential returned by the OAuth exchange, stamped with `now`. */
    method SignIn(accessToken: string, refreshToken: string, expiresIn: int, now: int)
      modifies this
      ensures ztoken == Credential(accessToken, refreshToken, expiresIn, now)
    {
      ztoken := Credential(accessToken, refreshToken, expiresIn, now);
    }

    /** Forgets the stored credential. */
    method LogOut()
      modifies this
      ensures ztoken == Unset
    {
      ztoken := Unset;
    }
  }
}
