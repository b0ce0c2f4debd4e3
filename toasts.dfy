/**
 * `useToast`: the notifications shown at the top of the page, one shared
 * array that components append to and remove from by id.
 */
module Toasts {
  import opened Wrappers
  import opened Seqs

  datatype Kind = Success | Error | Info

  /**
   * One notification. The source takes `Date.now() + Math.random()` as the
   * id; here it is whatever number the caller supplies.
   */
  datatype Toast = Toast(id: int, message: string, kind: Kind)

  function HasId(id: int): Toast -> bool {
    (t: Toast) => t.id == id
  }

  /** The toasts after `removeToast(id)`: the first one with that id is spliced out, if there is one. */
  function Removed(toasts: seq<Toast>, id: int): seq<Toast> {
    var i := FirstIndex(toasts, HasId(id));
    if i == -1 then toasts else RemoveAt(toasts, i)
  }

  /**
   * Removing an id no toast has changes nothing; otherwise exactly the
   * first toast with that id goes, and the others keep their order.
   */
  lemma RemovedFacts(toasts: seq<Toast>, id: int)
    ensures (forall t :: t in toasts ==> t.id != id) ==> Removed(toasts, id) == toasts
    ensures (exists t :: t in toasts && t.id == id) ==>
      exists i :: 0 <= i < |toasts|
        && toasts[i].id == id
        && (forall k :: 0 <= k < i ==> toasts[k].id != id)
        && Removed(toasts, id) == toasts[..i] + toasts[i + 1..]
    ensures |Removed(toasts, id)| == if exists t :: t in toasts && t.id == id then |toasts| - 1 else |toasts|
  {
    var i := FirstIndex(toasts, HasId(id));
    if i == -1 {
      forall t | t in toasts
        ensures t.id != id
      {
        var k :| 0 <= k < |toasts| && toasts[k] == t;
        assert !HasId(id)(toasts[k]);
      }
    } else {
      assert HasId(id)(toasts[i]);
      assert toasts[i] in toasts;
      assert Removed(toasts, id) == toasts[..i] + toasts[i + 1..];
    }
  }

  /** A toast just shown is the one `removeToast` takes away again, when its id was new. */
  lemma ShowThenRemove(toasts: seq<Toast>, t: Toast)
    requires forall u :: u in toasts ==> u.id != t.id
    ensures Removed(toasts + [t], t.id) == toasts
  {
    var s := toasts + [t];
    forall k | 0 <= k < |toasts|
      ensures !HasId(t.id)(s[k])
    {
      assert s[k] == toasts[k] && toasts[k] in toasts;
    }
    assert HasId(t.id)(s[|toasts|]);
    assert FirstIndex(s, HasId(t.id)) == |toasts|;
    assert s[..|toasts|] == toasts;
  }

  /** The shared `toasts` state. */
  class ToastList {
    var toasts: seq<Toast>

    constructor ()
      ensures toasts == []
    {
      toasts := [];
    }

    /** `showToast`: appends one toast, of kind `info` unless another is given, and returns its id. */
    method ShowToast(message: string, kind: Option<Kind>, id: int) returns (shown: int)
      modifies this
      ensures shown == id
      ensures toasts == old(toasts) + [Toast(id, message, kind.GetOr(Info))]
    {
      toasts := toasts + [Toast(id, message, kind.GetOr(Info))];
      shown := id;
    }

    /** `removeToast`: a `findIndex` for the id and a `splice` of that one element. */
    method RemoveToast(id: int)
      modifies this
      ensures toasts == Removed(old(toasts), id)
    {
      var index := FindIndex(toasts, HasId(id));
      if index > -1 {
        toasts := RemoveAt(toasts, index);
      }
    }

    /** `showSuccess`. */
    method ShowSuccess(message: string, id: int) returns (shown: int)
      modifies this
      ensures shown == id
      ensures toasts == old(toasts) + [Toast(id, message, Success)]
    {
      shown := ShowToast(message, Some(Success), id);
    }

    /** `showError`. */
    method ShowError(message: string, id: int) returns (shown: int)
      modifies this
      ensures shown == id
      ensures toasts == old(toasts) + [Toast(id, message, Error)]
    {
      shown := ShowToast(message, Some(Error), id);
    }

    /** `showInfo`. */
    method ShowInfo(message: string, id: int) returns (shown: int)
      modifies this
      ensures shown == id
      ensures toasts == old(toasts) + [Toast(id, message, Info)]
    {
      shown := ShowToast(message, Some(Info), id);
    }
  }
}
