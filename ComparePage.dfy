/**
 * The run selector of the variant comparison page
 * (frontend/src/pages/Compare.tsx): at most four distinct runs can be picked,
 * and comparing asks the server for the picked runs and keeps either the runs it
 * returned or the error message. The server call is a parameter; its two ends
 * (the request going out, the reply coming back) are two methods, as the
 * `await` splits the handler in two.
 */
module CompareUi {
  import opened Common

  /** The most runs the page lets one select. */
  const MaxSelected := 4

  /** A run as the compare endpoint returns it; the page only stores it. */
  datatype RunDetail = RunDetail(runId: string, status: string, model: string)

  /** `prev.filter((x) => x !== id)`. */
  function Without(prev: seq<string>, id: string): (r: seq<string>)
    ensures forall x :: x in r <==> x in prev && x != id
    ensures |r| <= |prev|
    ensures id !in prev ==> r == prev
  {
    if |prev| == 0 then []
    else (if prev[0] == id then [] else [prev[0]]) + Without(prev[1..], id)
  }

  /** The selection after a click on `id`: deselect, refuse a fifth, or add it last. */
  function Toggled(prev: seq<string>, id: string): seq<string>
  {
    if id in prev then Without(prev, id)
    else if |prev| >= MaxSelected then prev
    else prev + [id]
  }

  predicate NoDuplicates(s: seq<string>)
  {
    forall i, j :: 0 <= i < j < |s| ==> s[i] != s[j]
  }

  /** What the page keeps true of its selection. */
  predicate Selection(s: seq<string>)
  {
    |s| <= MaxSelected && NoDuplicates(s)
  }

  /** Removing an id from a list without duplicates keeps the others, in order, once each. */
  lemma {:induction false} WithoutKeepsDistinct(prev: seq<string>, id: string)
    requires NoDuplicates(prev)
    ensures NoDuplicates(Without(prev, id))
    ensures id in prev ==> |Without(prev, id)| == |prev| - 1
  {
    if |prev| > 0 {
      var tail := prev[1..];
      assert NoDuplicates(tail) by {
        forall i, j | 0 <= i < j < |tail| ensures tail[i] != tail[j] {
          assert tail[i] == prev[i + 1] && tail[j] == prev[j + 1];
        }
      }
      WithoutKeepsDistinct(tail, id);
      assert prev[0] !in tail by {
        forall k | 0 <= k < |tail| ensures tail[k] != prev[0] {
          assert tail[k] == prev[k + 1];
        }
      }
      var w := Without(tail, id);
      if prev[0] == id {
        assert id !in tail;
        assert w == tail;
      } else {
        assert prev[0] !in w;
        forall i, j | 0 <= i < j < |[prev[0]] + w| ensures ([prev[0]] + w)[i] != ([prev[0]] + w)[j] {
          if i == 0 {
            assert ([prev[0]] + w)[j] == w[j - 1];
          } else {
            assert ([prev[0]] + w)[i] == w[i - 1] && ([prev[0]] + w)[j] == w[j - 1];
          }
        }
      }
    }
  }

  /** A click never breaks the selection's bound of four distinct ids. */
  lemma ToggledKeepsSelection(prev: seq<string>, id: string)
    requires Selection(prev)
    ensures Selection(Toggled(prev, id))
  {
    WithoutKeepsDistinct(prev, id);
  }

  /** A click on a selected id deselects it and keeps the other ids. */
  lemma ToggledDeselects(prev: seq<string>, id: string)
    requires NoDuplicates(prev) && id in prev
    ensures id !in Toggled(prev, id)
    ensures |Toggled(prev, id)| == |prev| - 1
    ensures forall x :: x != id ==> (x in Toggled(prev, id) <==> x in prev)
  {
    WithoutKeepsDistinct(prev, id);
  }

  /** A click on an unselected id adds it last unless four are selected, when nothing changes. */
  lemma ToggledSelects(prev: seq<string>, id: string)
    requires id !in prev
    ensures |prev| < MaxSelected ==> Toggled(prev, id) == prev + [id]
    ensures |prev| >= MaxSelected ==> Toggled(prev, id) == prev
  {
  }

  /** Two clicks on an id that was not selected, with room for it, leave the selection as it was. */
  lemma {:induction false} ToggledTwice(prev: seq<string>, id: string)
    requires id !in prev && |prev| < MaxSelected
    ensures Toggled(Toggled(prev, id), id) == prev
  {
    WithoutAppended(prev, id);
  }

  lemma {:induction false} WithoutAppended(prev: seq<string>, id: string)
    requires id !in prev
    ensures Without(prev + [id], id) == prev
  {
    if |prev| == 0 {
      assert Without([id], id) == [] + Without([], id);
    } else {
      assert (prev + [id])[1..] == prev[1..] + [id];
      WithoutAppended(prev[1..], id);
    }
  }

  /** The page's state: the selection, the last comparison, the busy flag and the error banner. */
  class ComparePage {
    var selectedIds: seq<string>
    var compareResult: Option<seq<RunDetail>>
    var comparing: bool
    var error: Option<string>

    predicate Valid()
      reads this
    {
      Selection(selectedIds)
    }

    constructor()
      ensures Valid()
      ensures selectedIds == [] && compareResult == None && !comparing && error == None
    {
      selectedIds := [];
      compareResult := None;
      comparing := false;
      error := None;
    }

    /** `toggleRun`: the selection updater, written out on the current selection. */
    method ToggleRun(id: string)
      requires Valid()
      modifies this
      ensures Valid()
      ensures selectedIds == Toggled(old(selectedIds), id)
      ensures compareResult == old(compareResult) && comparing == old(comparing) && error == old(error)
    {
      ToggledKeepsSelection(selectedIds, id);
      if id in selectedIds {
        selectedIds := Without(selectedIds, id);
        return;
      }
      if |selectedIds| >= MaxSelected {
        return;
      }
      selectedIds := selectedIds + [id];
    }

    /**
     * `handleCompare` up to its `await`: with fewer than two runs nothing happens and
     * nothing is requested; otherwise the page turns busy, clears the error and asks
     * for the selected ids in selection order.
     */
    method HandleCompare() returns (request: Option<seq<string>>)
      modifies this
      ensures |old(selectedIds)| < 2 ==>
        request == None && comparing == old(comparing) && error == old(error)
      ensures |old(selectedIds)| >= 2 ==> request == Some(old(selectedIds)) && comparing && error == None
      ensures selectedIds == old(selectedIds) && compareResult == old(compareResult)
    {
      if |selectedIds| < 2 {
        return None;
      }
      comparing := true;
      error := None;
      request := Some(selectedIds);
    }

    /**
     * `handleCompare` after its `await`: the returned runs replace the last comparison,
     * or the error message is shown and the last comparison kept; the page is idle again.
     */
    method CompareSettled(reply: Result<seq<RunDetail>, string>)
      modifies this
      ensures reply.Ok? ==> compareResult == Some(reply.value) && error == old(error)
      ensures reply.Err? ==> compareResult == old(compareResult) && error == Some(reply.error)
      ensures !comparing && selectedIds == old(selectedIds)
    {
      match reply {
        case Ok(runs) =>
          compareResult := Some(runs);
        case Err(message) =>
          error := Some(message);
      }
      comparing := false;
    }
  }
}
