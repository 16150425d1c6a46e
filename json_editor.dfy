/**
 * The record editor of src/components/JsonEditor.jsx.
 *
 * The component receives the committed record as its `data` prop and keeps a
 * working copy `editableData` and an `isEditing` flag. The event handlers
 * overwrite these two state fields; the class `Editor` models them, and the
 * datatype `EditorState` with `Step` and `Run` gives the same transitions as
 * values, so that whole event sequences can be reasoned about.
 */
module JsonEditor {
  import opened Options

  /** A record as the editor shows it: property name to value. */
  type Record<V> = map<string, V>

  /** `data || {}`: an absent record reads as the empty one. */
  function OrEmpty<V>(data: Option<Record<V>>): Record<V>
  {
    match data
    case None => map[]
    case Some(m) => m
  }

  /** The copy `{...prev, [key]: value}` built by `handleChange`. */
  function WithKey<V>(m: Record<V>, key: string, value: V): (r: Record<V>)
    ensures key in r && r[key] == value
    ensures r.Keys == m.Keys + {key}
    ensures forall k :: k in m && k != key ==> r[k] == m[k]
  {
    m[key := value]
  }

  /** The editor renders its empty state exactly when there is no record or
      the record has no property to show. */
  function ShowsEmptyState<V>(data: Option<Record<V>>): (empty: bool)
    ensures !empty <==> data.Some? && exists k :: k in data.value
  {
    match data
    case None => true
    case Some(m) =>
      if |m| == 0 then
        assert m == map[];
        true
      else
        var k :| k in m;
        false
  }

  datatype EditorState<V> = EditorState(data: Option<Record<V>>, editableData: Record<V>, isEditing: bool)

  /** What can happen to the editor: the parent passes a new `data` prop
      (which fires the synchronising effect), or a handler runs. */
  datatype Event<V> =
    | DataChanged(newData: Option<Record<V>>)
    | Edit
    | Save
    | Cancel
    | Change(key: string, value: V)

  /** One transition of the editor. Only a new prop changes the committed
      record; only edit turns editing on, and save and cancel turn it off;
      edit and save leave the working copy alone. */
  function Step<V>(s: EditorState<V>, e: Event<V>): (r: EditorState<V>)
    ensures r.data == (if e.DataChanged? then e.newData else s.data)
    ensures r.isEditing == (if e.Edit? then true else if e.Save? || e.Cancel? then false else s.isEditing)
    ensures e.Edit? || e.Save? ==> r.editableData == s.editableData
    ensures e.Cancel? || e.DataChanged? ==> r.editableData == OrEmpty(r.data)
  {
    match e
    case DataChanged(d) => s.(data := d, editableData := OrEmpty(d))
    case Edit => s.(isEditing := true)
    case Save => s.(isEditing := false)
    case Cancel => s.(editableData := OrEmpty(s.data), isEditing := false)
    case Change(k, v) => s.(editableData := WithKey(s.editableData, k, v))
  }

  /** The state after a sequence of events, first event first. */
  function Run<V>(s: EditorState<V>, es: seq<Event<V>>): EditorState<V>
    decreases |es|
  {
    if es == [] then s else Run(Step(s, es[0]), es[1..])
  }

  /** A sequence of events in which the parent never passes a new record. */
  predicate KeepsProp<V>(es: seq<Event<V>>)
  {
    forall i :: 0 <= i < |es| ==> !es[i].DataChanged?
  }

  /** Running two sequences one after the other is running their concatenation. */
  lemma {:induction false} RunConcat<V>(s: EditorState<V>, a: seq<Event<V>>, b: seq<Event<V>>)
    ensures Run(s, a + b) == Run(Run(s, a), b)
    decreases |a|
  {
    if a == [] {
      assert a + b == b;
    } else {
      assert (a + b)[0] == a[0];
      assert (a + b)[1..] == a[1..] + b;
      RunConcat(Step(s, a[0]), a[1..], b);
    }
  }

  /** Only a new prop changes the committed record: no handler touches it. */
  lemma {:induction false} RunKeepsData<V>(s: EditorState<V>, es: seq<Event<V>>)
    requires KeepsProp(es)
    ensures Run(s, es).data == s.data
    decreases |es|
  {
    if es != [] {
      assert !es[0].DataChanged?;
      assert KeepsProp(es[1..]) by {
        forall i | 0 <= i < |es[1..]| ensures !es[1..][i].DataChanged? {
          assert es[1..][i] == es[i + 1];
        }
      }
      RunKeepsData(Step(s, es[0]), es[1..]);
    }
  }

  /** Cancel is a true rollback: starting an edit, then any events that leave
      the prop alone (changes, saves, further edits), then cancelling, leaves
      the working copy equal to the committed record and editing off. */
  lemma CancelRestoresCommitted<V>(s: EditorState<V>, es: seq<Event<V>>)
    requires KeepsProp(es)
    ensures Run(s, [Edit] + es + [Cancel]) == EditorState(s.data, OrEmpty(s.data), false)
  {
    var t := Step(s, Edit);
    assert ([Edit] + es + [Cancel])[0] == Edit;
    assert ([Edit] + es + [Cancel])[1..] == es + [Cancel];
    RunConcat(t, es, [Cancel]);
    RunKeepsData(t, es);
  }

  /** Edit, any number of changes, cancel: a synchronised, non-editing editor
      comes back to exactly the state it started in. */
  lemma EditCancelRoundTrip<V>(s: EditorState<V>, es: seq<Event<V>>)
    requires s.editableData == OrEmpty(s.data) && !s.isEditing
    requires KeepsProp(es)
    ensures Run(s, [Edit] + es + [Cancel]) == s
  {
    CancelRestoresCommitted(s, es);
  }

  /** Saving commits nothing by itself: when the parent does not feed the
      saved map back as the new prop, a later edit and cancel discards the
      saved changes. */
  lemma SaveWithoutNewPropIsUndone<V>(s: EditorState<V>)
    ensures Run(s, [Save, Edit, Cancel]) == EditorState(s.data, OrEmpty(s.data), false)
  {
  }

  /** When the parent passes the saved map back as the new prop, the edits
      become the committed record and survive a later cancel. */
  lemma SaveThenNewPropCommits<V>(s: EditorState<V>)
    ensures var t := Run(s, [Save, DataChanged(Some(s.editableData))]);
      t == EditorState(Some(s.editableData), s.editableData, false) &&
      Step(t, Cancel) == t
  {
    var es := [Save, DataChanged(Some(s.editableData))];
    var saved := Step(s, Save);
    assert es[1..] == [DataChanged(Some(s.editableData))];
    assert Run(s, es) == Run(saved, es[1..]);
    assert Run(saved, es[1..]) == Run(Step(saved, es[1]), []);
  }

  /** The component's state fields, overwritten in place by its handlers. */
  class Editor<V> {
    /** The `data` prop: the committed record. */
    var data: Option<Record<V>>
    var editableData: Record<V>
    var isEditing: bool

    function State(): EditorState<V>
      reads this
    {
      EditorState(data, editableData, isEditing)
    }

    /** Mounting: the state starts as `{}` and not editing, then the
        synchronising effect runs for the first prop. */
    constructor (data: Option<Record<V>>)
      ensures this.data == data && editableData == OrEmpty(data) && !isEditing
    {
      this.data := data;
      editableData := map[];
      isEditing := false;
      new;
      editableData := OrEmpty(data);
    }

    /** The effect on `[data]`: a new prop replaces the working copy by the
        new record (or `{}`), whatever was being edited; the mode is kept. */
    method DataChanged(d: Option<Record<V>>)
      modifies this
      ensures data == d && editableData == OrEmpty(d) && isEditing == old(isEditing)
      ensures State() == Step(old(State()), Event.DataChanged(d))
    {
      data := d;
      editableData := OrEmpty(d);
    }

    method HandleEdit()
      modifies this
      ensures isEditing && data == old(data) && editableData == old(editableData)
      ensures State() == Step(old(State()), Edit)
    {
      isEditing := true;
    }

    /** Leaves editing mode and hands exactly the working copy to `onUpdate`
        when the parent gave one (`sent` is what it receives); the working
        copy and the committed record are left as they are. */
    method HandleSave(hasOnUpdate: bool) returns (sent: Option<Record<V>>)
      modifies this
      ensures !isEditing && data == old(data) && editableData == old(editableData)
      ensures sent == if hasOnUpdate then Some(editableData) else None
      ensures State() == Step(old(State()), Save)
    {
      isEditing := false;
      sent := if hasOnUpdate then Some(editableData) else None;
    }

    method HandleCancel()
      modifies this
      ensures editableData == OrEmpty(data) && !isEditing && data == old(data)
      ensures State() == Step(old(State()), Cancel)
    {
      editableData := OrEmpty(data);
      isEditing := false;
    }

    /** Sets one property of the working copy; every other property keeps
        its value and an absent property is added. The handler does not
        look at the mode. */
    method HandleChange(key: string, value: V)
      modifies this
      ensures key in editableData && editableData[key] == value
      ensures editableData.Keys == old(editableData).Keys + {key}
      ensures forall k :: k in old(editableData) && k != key ==> editableData[k] == old(editableData)[k]
      ensures data == old(data) && isEditing == old(isEditing)
      ensures State() == Step(old(State()), Change(key, value))
    {
      editableData := WithKey(editableData, key, value);
    }
  }
}
