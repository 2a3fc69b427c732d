/** The response classifier: every handler of the gateway asks it whether a
    completed RDM transaction succeeded and, if not, what to tell the user. */
module ResponseCheck {
  import opened Support
  import opened Rdm
  import opened Replies

  /** What `CheckForRDMSuccessWithError` reports: the success flag, and the
      text it writes through its `error` pointer (`None`: left untouched). */
  datatype Check = Check(ok: bool, error: Option<string>)

  const TRANSPORT_ERROR_PREFIX: string := "RDM command error: "
  const NACK_PREFIX: string := "Request was NACKED with code: "
  const MALFORMED_PREFIX: string := "Malformed RDM response "
  const UNKNOWN_STATUS_PREFIX: string := "Unknown response status "

  /** The classifier. A broadcast request is not a success but is not an
      error either: it leaves `error` untouched. */
  function CheckForRDMSuccessWithError(status: ResponseStatus, names: Names): (r: Check)
    ensures r.ok <==> status.responseType.ValidResponse?
    ensures r.error.None? <==> (status.responseType.ValidResponse? || status.responseType.BroadcastRequest?)
    ensures status.responseType.TransportError? ==> r.error == Some(TRANSPORT_ERROR_PREFIX + status.error)
    ensures status.responseType.RequestNacked? ==> r.error == Some(NACK_PREFIX + names.nackReason(status.nackReason))
    ensures status.responseType.MalformedResponse? ==> r.error == Some(MALFORMED_PREFIX + status.error)
    ensures status.responseType.OtherType? ==>
              r.error == Some(UNKNOWN_STATUS_PREFIX + IntToString(status.responseType.code))
  {
    match status.responseType
    case TransportError => Check(false, Some(TRANSPORT_ERROR_PREFIX + status.error))
    case BroadcastRequest => Check(false, None)
    case RequestNacked => Check(false, Some(NACK_PREFIX + names.nackReason(status.nackReason)))
    case MalformedResponse => Check(false, Some(MALFORMED_PREFIX + status.error))
    case ValidResponse => Check(true, None)
    case OtherType(code) => Check(false, Some(UNKNOWN_STATUS_PREFIX + IntToString(code)))
  }

  /** `CheckForRDMSuccess`: the flag alone (the message only goes to the log). */
  function CheckForRDMSuccess(status: ResponseStatus, names: Names): (ok: bool)
    ensures ok <==> status.responseType.ValidResponse?
  {
    CheckForRDMSuccessWithError(status, names).ok
  }

  /** `CheckForRDMError`: on failure, the error reply it sends (`None`: the
      transaction succeeded and the handler goes on). The message is empty
      for a broadcast request, whose `error` string was never written. */
  function CheckForRDMError(status: ResponseStatus, names: Names): (reply: Option<HttpReply>)
    ensures reply.None? <==> status.responseType.ValidResponse?
    ensures reply.Some? ==> reply.value.ErrorJson?
    ensures reply == Some(ErrorJson("")) <==> status.responseType.BroadcastRequest?
    ensures reply.Some? ==>
              reply.value.error == (var c := CheckForRDMSuccessWithError(status, names);
                                    if c.error.Some? then c.error.value else "")
  {
    var check := CheckForRDMSuccessWithError(status, names);
    if check.ok then None
    else
      MessagesNonEmpty(status, names);
      Some(ErrorJson(if check.error.Some? then check.error.value else ""))
  }

  /** `SetHandler`: a set is acknowledged with an empty error exactly when
      the device accepted it or it was broadcast. */
  function SetHandler(status: ResponseStatus, names: Names): (reply: HttpReply)
    ensures reply.ErrorJson?
    ensures reply.error == "" <==> (status.responseType.ValidResponse? || status.responseType.BroadcastRequest?)
    ensures reply.error == (var c := CheckForRDMSuccessWithError(status, names);
                            if c.error.Some? then c.error.value else "")
  {
    var check := CheckForRDMSuccessWithError(status, names);
    MessagesNonEmpty(status, names);
    ErrorJson(if check.error.Some? then check.error.value else "")
  }

  /** Whatever the classifier writes is a non-empty message. */
  lemma MessagesNonEmpty(status: ResponseStatus, names: Names)
    ensures var r := CheckForRDMSuccessWithError(status, names); r.error.Some? ==> r.error.value != ""
  {
  }

  /** The four kinds of failure message. */
  datatype Category = CommandError | Nacked | Malformed | UnknownStatus

  /** The failure category a status belongs to; `None` for the two statuses
      that write no message. */
  function CategoryOf(t: ResponseType): Option<Category> {
    match t
    case TransportError => Some(CommandError)
    case RequestNacked => Some(Nacked)
    case MalformedResponse => Some(Malformed)
    case OtherType(_) => Some(UnknownStatus)
    case _ => None
  }

  predicate HasPrefix(p: string, s: string) {
    |p| <= |s| && s[..|p|] == p
  }

  /** Reads the category back from a message by its prefix. */
  function MessageCategory(msg: string): Option<Category> {
    if HasPrefix(TRANSPORT_ERROR_PREFIX, msg) then Some(CommandError)
    else if HasPrefix(NACK_PREFIX, msg) then Some(Nacked)
    else if HasPrefix(MALFORMED_PREFIX, msg) then Some(Malformed)
    else if HasPrefix(UNKNOWN_STATUS_PREFIX, msg) then Some(UnknownStatus)
    else None
  }

  /** Two texts that differ at a position inside both prefixes cannot both
      start a message. */
  lemma NotBothPrefixes(p: string, q: string, s: string, k: nat)
    requires k < |p| && k < |q| && p[k] != q[k]
    requires HasPrefix(p, s)
    ensures !HasPrefix(q, s)
  {
    assert s[k] == s[..|p|][k] == p[k];
    assert |q| <= |s| ==> s[..|q|][k] == s[k];
  }

  lemma PrefixOfConcat(p: string, x: string)
    ensures HasPrefix(p, p + x)
  {
    assert (p + x)[..|p|] == p;
  }

  /** The message names its category: the user can tell a transport
      failure, a NACK, a malformed reply and an unknown status apart from the
      text alone. */
  lemma MessageNamesCategory(status: ResponseStatus, names: Names)
    ensures var r := CheckForRDMSuccessWithError(status, names);
            r.error.Some? ==> MessageCategory(r.error.value) == CategoryOf(status.responseType)
  {
    var r := CheckForRDMSuccessWithError(status, names);
    match status.responseType
    case TransportError =>
      PrefixOfConcat(TRANSPORT_ERROR_PREFIX, status.error);
    case RequestNacked =>
      var m := r.error.value;
      PrefixOfConcat(NACK_PREFIX, names.nackReason(status.nackReason));
      NotBothPrefixes(NACK_PREFIX, TRANSPORT_ERROR_PREFIX, m, 1);
    case MalformedResponse =>
      var m := r.error.value;
      PrefixOfConcat(MALFORMED_PREFIX, status.error);
      NotBothPrefixes(MALFORMED_PREFIX, TRANSPORT_ERROR_PREFIX, m, 0);
      NotBothPrefixes(MALFORMED_PREFIX, NACK_PREFIX, m, 0);
    case OtherType(code) =>
      var m := r.error.value;
      PrefixOfConcat(UNKNOWN_STATUS_PREFIX, IntToString(code));
      NotBothPrefixes(UNKNOWN_STATUS_PREFIX, TRANSPORT_ERROR_PREFIX, m, 0);
      NotBothPrefixes(UNKNOWN_STATUS_PREFIX, NACK_PREFIX, m, 0);
      NotBothPrefixes(UNKNOWN_STATUS_PREFIX, MALFORMED_PREFIX, m, 0);
    case _ =>
  }
}
