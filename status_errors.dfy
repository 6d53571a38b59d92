/**
 * The not-found classifier of the Multus admission controller package:
 * an error, possibly wrapped in other errors, is searched along its wrap
 * chain for the first member that carries an API status (a reason and a
 * numeric code), and the error is "not found" when that status says so.
 */
module StatusErrors {

  datatype Option<+T> = None | Some(value: T)

  /** A 32-bit signed integer, the type of a status code. */
  newtype int32 = x: int | -0x8000_0000 <= x < 0x8000_0000

  /** A symbolic status reason; in the API machinery it is a string type. */
  type StatusReason = string

  /** The reason the API machinery reports for a missing object. */
  const ReasonNotFound: StatusReason := "NotFound"
  /** The reason of an unknown status: the empty string. */
  const ReasonUnknown: StatusReason := ""
  /** The reason the API machinery reports for a refused request. */
  const ReasonForbidden: StatusReason := "Forbidden"

  /** HTTP 404 Not Found (section 15.5.5 of RFC 9110). */
  const StatusNotFound: int32 := 404
  /** HTTP 403 Forbidden (section 15.5.4 of RFC 9110). */
  const StatusForbidden: int32 := 403

  /** The part of an API status object the classifier reads. */
  datatype Status = Status(reason: StatusReason, code: int32)

  /**
   * A non-nil error. `status` is present when the error exposes an API
   * status (implements the status interface); `cause` is what unwrapping
   * it yields, if anything. A nil error is `None` of `Option<Error>`.
   */
  datatype Error = Error(message: string, status: Option<Status>, cause: Option<Error>)

  /** Wrapping adds a status-less layer in front of an error; wrapping nil gives nil. */
  function Wrap(err: Option<Error>, message: string): (w: Option<Error>)
    ensures err.None? <==> w.None?
    ensures w.Some? ==> w.value.status.None? && w.value.cause == err
  {
    match err
    case None => None
    case Some(e) => Some(Error(message, None, Some(e)))
  }

  /** Wraps `err` once per message, the first message innermost. */
  function WrapAll(err: Option<Error>, messages: seq<string>): Option<Error>
    decreases |messages|
  {
    if messages == [] then err
    else Wrap(WrapAll(err, messages[..|messages| - 1]), messages[|messages| - 1])
  }

  /** The wrap chain of `e`: `e` itself, then what unwrapping gives, until nothing is left. */
  function Chain(e: Error): (c: seq<Error>)
    ensures |c| >= 1 && c[0] == e
    ensures forall i :: 0 <= i < |c| - 1 ==> c[i].cause == Some(c[i + 1])
    ensures c[|c| - 1].cause.None?
  {
    match e.cause
    case None => [e]
    case Some(inner) => [e] + Chain(inner)
  }

  /** Index `i` of chain `c` is the first member that carries a status. */
  ghost predicate FirstCarrier(c: seq<Error>, i: int)
  {
    0 <= i < |c| && c[i].status.Some? && forall j :: 0 <= j < i ==> c[j].status.None?
  }

  /** No member of chain `c` carries a status. */
  ghost predicate NoCarrier(c: seq<Error>)
  {
    forall i :: 0 <= i < |c| ==> c[i].status.None?
  }

  /** The search: the error itself first, then down its wrap chain. */
  function FirstStatus(e: Error): (r: Option<Status>)
    ensures e.status.Some? ==> r == e.status
    ensures e.cause.None? ==> r == e.status
  {
    if e.status.Some? then e.status
    else match e.cause
      case None => None
      case Some(inner) => FirstStatus(inner)
  }

  /** The search returns exactly the status of the first carrier in the chain. */
  lemma {:induction false} FirstStatusIsFirstInChain(e: Error)
    ensures FirstStatus(e).None? <==> NoCarrier(Chain(e))
    ensures FirstStatus(e).Some? ==> exists i :: FirstCarrier(Chain(e), i)
    ensures forall i :: FirstCarrier(Chain(e), i) ==> FirstStatus(e) == Chain(e)[i].status
  {
    var c := Chain(e);
    if e.status.Some? {
      assert FirstCarrier(c, 0);
      forall i | 0 < i < |c| ensures !FirstCarrier(c, i) {
        assert c[0].status.Some?;
      }
    } else {
      match e.cause
      case None =>
        assert c == [e];
      case Some(inner) =>
        FirstStatusIsFirstInChain(inner);
        var d := Chain(inner);
        assert c == [e] + d;
        if FirstStatus(e).None? {
          assert NoCarrier(c) by {
            forall i | 0 <= i < |c| ensures c[i].status.None? {
              if i > 0 { assert c[i] == d[i - 1]; }
            }
          }
        } else {
          assert !NoCarrier(c) by {
            var k :| FirstCarrier(d, k);
            assert c[k + 1] == d[k];
          }
        }
        if FirstStatus(e).Some? {
          var k :| FirstCarrier(d, k);
          assert FirstCarrier(c, k + 1) by {
            forall j | 0 <= j < k + 1 ensures c[j].status.None? {
              if j > 0 { assert c[j] == d[j - 1]; }
            }
          }
        }
        forall i | FirstCarrier(c, i) ensures FirstStatus(e) == c[i].status {
          assert i > 0;
          assert FirstCarrier(d, i - 1) by {
            forall j | 0 <= j < i - 1 ensures d[j].status.None? {
              assert d[j] == c[j + 1];
            }
          }
        }
    }
  }

  /**
   * The reason and code of `err`: those of the first error in its wrap chain
   * that carries a status, or (Unknown, 0) when `err` is nil or none does.
   */
  function ReasonAndCodeForError(err: Option<Error>): (rc: (StatusReason, int32))
    ensures err.None? ==> rc == (ReasonUnknown, 0)
    ensures err.Some? && NoCarrier(Chain(err.value)) ==> rc == (ReasonUnknown, 0)
    ensures err.Some? ==> forall i :: FirstCarrier(Chain(err.value), i) ==>
              rc == (Chain(err.value)[i].status.value.reason, Chain(err.value)[i].status.value.code)
  {
    match err
    case None => (ReasonUnknown, 0)
    case Some(e) =>
      FirstStatusIsFirstInChain(e);
      match FirstStatus(e)
      case Some(s) => (s.reason, s.code)
      case None => (ReasonUnknown, 0)
  }

  /** The not-found rule: either the reason or the code is enough. */
  predicate NotFoundStatus(s: Status)
  {
    s.reason == ReasonNotFound || s.code == StatusNotFound
  }

  /**
   * True exactly when `err` is non-nil and the first error in its wrap chain
   * that carries a status reports reason NotFound or code 404.
   */
  function IsNotFound(err: Option<Error>): (r: bool)
    ensures err.None? ==> !r
    ensures err.Some? ==>
              (r <==> exists i :: FirstCarrier(Chain(err.value), i) && NotFoundStatus(Chain(err.value)[i].status.value))
  {
    var (reason, code) := ReasonAndCodeForError(err);
    var notFound := reason == ReasonNotFound || code == StatusNotFound;
    if err.Some? then FirstStatusIsFirstInChain(err.value); notFound else notFound
  }

  /** Wrapping an error any number of times keeps its reason, code and classification. */
  lemma {:induction false} WrapAllKeepsClassification(err: Option<Error>, messages: seq<string>)
    ensures ReasonAndCodeForError(WrapAll(err, messages)) == ReasonAndCodeForError(err)
    ensures IsNotFound(WrapAll(err, messages)) == IsNotFound(err)
    decreases |messages|
  {
    if messages != [] {
      var inner := WrapAll(err, messages[..|messages| - 1]);
      WrapAllKeepsClassification(err, messages[..|messages| - 1]);
      assert WrapAll(err, messages) == Wrap(inner, messages[|messages| - 1]);
    }
  }

  /** Only the first carrier counts: a status in front shadows a not-found status behind it. */
  lemma OuterStatusShadows(outer: Status, inner: Error, message: string)
    requires !NotFoundStatus(outer)
    ensures !IsNotFound(Some(Error(message, Some(outer), Some(inner))))
  {
  }

  /**
   * The classifier on representative inputs: nil, each half of the not-found
   * rule, a forbidden status, a status-less error and a twice-wrapped
   * not-found error.
   */
  lemma ClassifierExamples(message: string)
    ensures !IsNotFound(None)
    ensures IsNotFound(Some(Error(message, Some(Status(ReasonNotFound, 0)), None)))
    ensures IsNotFound(Some(Error(message, Some(Status(ReasonUnknown, StatusNotFound)), None)))
    ensures !IsNotFound(Some(Error(message, Some(Status(ReasonForbidden, StatusForbidden)), None)))
    ensures !IsNotFound(Some(Error(message, None, None)))
    ensures IsNotFound(Wrap(Wrap(Some(Error(message, Some(Status(ReasonNotFound, 0)), None)), message), message))
  {
    var notFound := Some(Error(message, Some(Status(ReasonNotFound, 0)), None));
    WrapAllKeepsClassification(notFound, [message, message]);
    assert WrapAll(notFound, [message, message]) == Wrap(Wrap(notFound, message), message) by {
      assert [message, message][..1] == [message];
      assert [message][..0] == [];
      assert WrapAll(notFound, [message]) == Wrap(notFound, message);
    }
  }
}
