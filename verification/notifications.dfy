/**
 * The client's notification list: `addNotification` appends a record whose id is the
 * current time in milliseconds, the expiry timer filters by that id, and the close
 * button filters by position.
 */
module Notifications {

  datatype Severity = Info | Success | Error

  /** The texts the client shows; the parametrised ones keep their parameters. */
  datatype Message =
    | Text(text: string)
    | Thrown(context: string)   // "<context>: " followed by an exception's message
    | InsufficientBalanceNotice(have: nat, symbol: string, want: int)
    | TransferredNotice(amount: int, symbol: string)
    | MintedNotice(amount: int, symbol: string)

  datatype Notification = Notification(id: int, message: Message, severity: Severity)

  /** `filter((n) => n.id !== id)`: the records whose id differs, in their order. */
  function WithoutId(ns: seq<Notification>, id: int): (r: seq<Notification>)
    ensures |r| <= |ns|
    ensures forall n :: n in r <==> n in ns && n.id != id
  {
    if ns == [] then []
    else (if ns[0].id == id then [] else [ns[0]]) + WithoutId(ns[1..], id)
  }

  lemma {:induction false} WithoutIdDistributes(a: seq<Notification>, b: seq<Notification>, id: int)
    ensures WithoutId(a + b, id) == WithoutId(a, id) + WithoutId(b, id)
    decreases |a|
  {
    if a == [] {
      assert a + b == b;
    } else {
      assert (a + b)[1..] == a[1..] + b;
      WithoutIdDistributes(a[1..], b, id);
    }
  }

  /** Filtering an id that no record carries changes nothing. */
  lemma {:induction false} WithoutAbsentId(ns: seq<Notification>, id: int)
    requires forall n :: n in ns ==> n.id != id
    ensures WithoutId(ns, id) == ns
    decreases |ns|
  {
    if ns != [] {
      assert ns[0] in ns;
      assert forall n :: n in ns[1..] ==> n in ns;
      WithoutAbsentId(ns[1..], id);
      assert ns == [ns[0]] + ns[1..];
    }
  }

  /** `prev.filter((_, i) => i !== index)` walking `ns` from position `pos` of the original list. */
  function DropPosition(ns: seq<Notification>, index: int, pos: int): (r: seq<Notification>)
    ensures pos <= index < pos + |ns| ==> r == ns[..index - pos] + ns[index - pos + 1..]
    ensures !(pos <= index < pos + |ns|) ==> r == ns
    decreases |ns|
  {
    if ns == [] then []
    else (if pos == index then [] else [ns[0]]) + DropPosition(ns[1..], index, pos + 1)
  }

  /** The close button: removes the record at `index`; any other index changes nothing. */
  function WithoutIndex(ns: seq<Notification>, index: int): (r: seq<Notification>)
    ensures 0 <= index < |ns| ==> |r| == |ns| - 1 && r == ns[..index] + ns[index + 1..]
    ensures !(0 <= index < |ns|) ==> r == ns
  {
    DropPosition(ns, index, 0)
  }

  /** The expiry timer of a record added with a fresh id removes exactly that record. */
  lemma ExpiryUndoesAdd(ns: seq<Notification>, added: Notification)
    requires forall n :: n in ns ==> n.id != added.id
    ensures WithoutId(ns + [added], added.id) == ns
  {
    WithoutIdDistributes(ns, [added], added.id);
    WithoutAbsentId(ns, added.id);
    assert [added][1..] == [];
  }

  /**
   * Two records added within the same millisecond share their id: the first one's
   * timer removes both.
   */
  lemma SameMillisecondExpiresTogether(ns: seq<Notification>, a: Notification, b: Notification)
    requires a.id == b.id
    ensures a !in WithoutId(ns + [a, b], a.id) && b !in WithoutId(ns + [a, b], a.id)
  {
  }
}
