/**
 * The part of the Web `FormData` interface the actions use: an ordered list of
 * named entries, and `get(name)`, which yields the first entry with that name
 * or `null`.
 */
module WebForm {
  import opened Wrappers

  /** A `FormDataEntryValue`: a string, or an uploaded file (whose content plays no part here). */
  datatype Entry = Text(text: string) | Blob

  /** The submitted fields, in submission order; a name may occur more than once. */
  type FormData = seq<(string, Entry)>

  /** `formData.get(name)`: the first entry named `name`, or `None` (`null`) when there is none. */
  function Get(form: FormData, name: string): (r: Option<Entry>)
    ensures r.None? <==> forall i :: 0 <= i < |form| ==> form[i].0 != name
    ensures r.Some? ==>
      exists i :: 0 <= i < |form| && form[i] == (name, r.value) &&
        forall j :: 0 <= j < i ==> form[j].0 != name
  {
    if form == [] then None
    else if form[0].0 == name then Some(form[0].1)
    else
      var r := Get(form[1..], name);
      assert forall i :: 1 <= i < |form| ==> form[i] == form[1..][i - 1];
      if r.Some? then
        var k :| 0 <= k < |form[1..]| && form[1..][k] == (name, r.value) &&
          forall j :: 0 <= j < k ==> form[1..][j].0 != name;
        assert form[k + 1] == (name, r.value);
        r
      else
        r
  }

  /** Entries appended after the first one named `name` do not change what `get` returns. */
  lemma {:induction false} GetIgnoresLaterEntries(form: FormData, name: string, e: Entry, later: FormData)
    ensures Get(form + [(name, e)] + later, name) == (if Get(form, name).Some? then Get(form, name) else Some(e))
  {
    if form != [] {
      assert (form + [(name, e)] + later)[1..] == form[1..] + [(name, e)] + later;
      GetIgnoresLaterEntries(form[1..], name, e, later);
    }
  }
}
