/**
 * The toast queue held by the toast context: `toast` appends an entry with a fresh id,
 * `removeToast` drops the entries with a given id, and one toast is rendered per entry.
 * The random id is a parameter of the model.
 */
module Toasts {
  import opened Wrappers
  import Seqs

  datatype ToastType = Success | Error | Warning | Info

  /** What a caller hands to `toast`: every field of a toast except its id. */
  datatype ToastRequest = ToastRequest(
    title: string,
    description: Option<string>,
    kind: Option<ToastType>,
    duration: Option<nat>)

  datatype Toast = Toast(
    id: string,
    title: string,
    description: Option<string>,
    kind: Option<ToastType>,
    duration: Option<nat>)

  /** A request with only a title and a description, the form most pages use. */
  function Titled(title: string, description: string): ToastRequest {
    ToastRequest(title, Some(description), None, None)
  }

  /** `{ ...newToast, id }`. */
  function WithId(req: ToastRequest, id: string): Toast {
    Toast(id, req.title, req.description, req.kind, req.duration)
  }

  function Ids(ts: seq<Toast>): seq<string> {
    seq(|ts|, i requires 0 <= i < |ts| => ts[i].id)
  }

  function NotId(id: string): Toast -> bool {
    (t: Toast) => t.id != id
  }

  /** `prev.filter((toast) => toast.id !== id)`. */
  function WithoutToast(ts: seq<Toast>, id: string): (r: seq<Toast>)
    ensures forall i :: 0 <= i < |r| ==> r[i].id != id && r[i] in ts
    ensures forall i :: 0 <= i < |ts| && ts[i].id != id ==> ts[i] in r
    ensures Seqs.IsSubsequence(r, ts)
    ensures id !in Ids(ts) ==> r == ts
    ensures forall x :: multiset(r)[x] == if x.id != id then multiset(ts)[x] else 0
  {
    Seqs.FilterIsSubsequence(ts, NotId(id));
    Seqs.FilterMultiset(ts, NotId(id));
    assert id !in Ids(ts) ==> forall i :: 0 <= i < |ts| ==> ts[i].id != id by {
      if id !in Ids(ts) {
        forall i | 0 <= i < |ts| ensures ts[i].id != id {
          assert Ids(ts)[i] == ts[i].id;
        }
      }
    }
    Seqs.Filter(ts, NotId(id))
  }

  /** Removing the id of a toast just shown, when that id was fresh, restores the queue. */
  lemma {:induction false} RemoveJustShown(ts: seq<Toast>, req: ToastRequest, id: string)
    requires id !in Ids(ts)
    ensures WithoutToast(ts + [WithId(req, id)], id) == ts
  {
    var keep := NotId(id);
    Seqs.FilterAppend(ts, [WithId(req, id)], keep);
    assert Seqs.Filter([WithId(req, id)], keep) == [];
    assert WithoutToast(ts, id) == ts;
  }

  /** What the provider renders for one entry: its fields and the id its close button removes. */
  datatype RenderedToast = RenderedToast(
    title: string,
    description: Option<string>,
    kind: Option<ToastType>,
    duration: Option<nat>,
    closes: string)

  function Render(ts: seq<Toast>): (r: seq<RenderedToast>)
    ensures |r| == |ts|
    ensures forall i :: 0 <= i < |ts| ==>
              && r[i].title == ts[i].title && r[i].description == ts[i].description
              && r[i].kind == ts[i].kind && r[i].duration == ts[i].duration
              && r[i].closes == ts[i].id
  {
    seq(|ts|, i requires 0 <= i < |ts| =>
      RenderedToast(ts[i].title, ts[i].description, ts[i].kind, ts[i].duration, ts[i].id))
  }

  /**
   * With distinct ids, closing the i-th rendered toast removes exactly that entry:
   * one fewer toast, the others in their order.
   */
  lemma {:induction false} CloseRemovesOwnToast(ts: seq<Toast>, i: nat)
    requires Seqs.NoDuplicates(Ids(ts))
    requires i < |ts|
    ensures WithoutToast(ts, Render(ts)[i].closes) == ts[..i] + ts[i + 1..]
  {
    var id := ts[i].id;
    var keep := NotId(id);
    var pre, post := ts[..i], ts[i + 1..];
    assert ts == (pre + [ts[i]]) + post;
    forall k | 0 <= k < |pre| ensures keep(pre[k]) {
      assert Ids(ts)[k] != Ids(ts)[i];
    }
    forall k | 0 <= k < |post| ensures keep(post[k]) {
      assert post[k] == ts[i + 1 + k];
      assert Ids(ts)[i] != Ids(ts)[i + 1 + k];
    }
    Seqs.FilterDropsOne(pre, ts[i], post, keep);
  }

  /** The toast context's state: the list of toasts on screen. */
  class ToastProvider {
    var toasts: seq<Toast>

    constructor ()
      ensures toasts == []
    {
      toasts := [];
    }

    /** `toast(newToast)`, with the random id passed in. */
    method Toast(req: ToastRequest, id: string)
      modifies this
      ensures toasts == old(toasts) + [WithId(req, id)]
    {
      toasts := toasts + [WithId(req, id)];
    }

    /** `removeToast(id)`. */
    method RemoveToast(id: string)
      modifies this
      ensures toasts == WithoutToast(old(toasts), id)
      ensures id !in Ids(old(toasts)) ==> toasts == old(toasts)
    {
      toasts := WithoutToast(toasts, id);
    }
  }
}
