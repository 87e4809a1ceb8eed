/**
 * What the job and resume selectors share: the list they load with its loading and error
 * state, the lookup of an entry by its id, and the "N things available" count.
 */
module Picker {
  import opened Wrappers
  import opened JsonData
  import opened Text

  /** `items.find(x => x[key] === id)`: the first entry whose `key` holds exactly the string `id`. */
  function FindById(items: seq<Json>, key: string, id: string): (r: Option<Json>)
    ensures r.Some? ==> r.value in items && Prop(r, key) == Some(JStr(id))
    ensures r.None? <==> forall i | 0 <= i < |items| :: Prop(Some(items[i]), key) != Some(JStr(id))
    ensures r.Some? ==> exists i | 0 <= i < |items| ::
      items[i] == r.value && forall j | 0 <= j < i :: Prop(Some(items[j]), key) != Some(JStr(id))
  {
    if items == [] then None
    else if Prop(Some(items[0]), key) == Some(JStr(id)) then Some(items[0])
    else
      var r := FindById(items[1..], key, id);
      assert forall i | 1 <= i < |items| :: items[i] == items[1..][i - 1];
      r
  }

  /** "N <noun>s available", with the noun singular exactly for one. */
  function CountText(n: nat, noun: string): (r: string)
    ensures n == 1 ==> r == "1 " + noun + " available"
    ensures n != 1 ==> r == NatToString(n) + " " + noun + "s available"
  {
    var count := NatToString(n);
    assert n == 1 ==> count == "1";
    var suffix := if n != 1 then "s" else "";
    assert count + " " + noun + suffix + " available" == (if n != 1 then count + " " + noun + "s available" else count + " " + noun + " available");
    count + " " + noun + suffix + " available"
  }

  /** How a fetch ended: the list, or a thrown value with its message when it was an `Error`. */
  datatype Fetched = Loaded(items: seq<Json>) | Thrown(message: Option<string>)

  /** A selector's list and its loading state. */
  class Loader {
    var items: seq<Json>
    var loading: bool
    var error: Option<string>

    /** Mounting: nothing loaded yet and loading. */
    constructor ()
      ensures items == [] && loading && error.None?
    {
      items := [];
      loading := true;
      error := None;
    }

    /**
     * One load: the fetched list replaces the entries; a thrown error keeps them and shows its
     * message, or `fallback` when the thrown value carries none. Loading ends either way.
     */
    method Finish(fetched: Fetched, fallback: string)
      modifies this
      ensures !loading
      ensures fetched.Loaded? ==> items == fetched.items && error.None?
      ensures fetched.Thrown? ==> items == old(items)
      ensures fetched.Thrown? && fetched.message.Some? ==> error == fetched.message
      ensures fetched.Thrown? && fetched.message.None? ==> error == Some(fallback)
    {
      loading := true;
      error := None;
      match fetched {
        case Loaded(data) =>
          items := data;
        case Thrown(message) =>
          error := if message.Some? then message else Some(fallback);
      }
      loading := false;
    }
  }
}
