/**
 The two kinds of inline-keyboard button and the reverse lookup from a button
 kind's wire string back to the kind (`ButtonType.java`).
 */
module ButtonTypes {
  import opened Wrappers

  /** `CALLBACK` buttons carry callback data, `URL` buttons carry a link. */
  datatype ButtonType = Callback | Url {
    /** The enum's `type` field. */
    function Type(): string {
      match this
      case Callback => "callback"
      case Url => "url"
    }
  }

  /** `ButtonType.values()`, in declaration order. */
  function Values(): (vs: seq<ButtonType>)
    ensures Callback in vs && Url in vs
    ensures |vs| == 2 && vs[0] != vs[1]
  {
    [Callback, Url]
  }

  /** The static initialiser's loop: `put(bt.type, bt)` for each variant in turn. */
  function BuildLookup(vs: seq<ButtonType>): (m: map<string, ButtonType>)
    ensures m.Keys == set bt | bt in vs :: bt.Type()
    ensures forall k :: k in m ==> m[k] in vs && m[k].Type() == k
  {
    if |vs| == 0 then map[]
    else
      var last := vs[|vs| - 1];
      BuildLookup(vs[..|vs| - 1])[last.Type() := last]
  }

  /** The private static map `BUTTON_TYPE`. */
  function ButtonTypeTable(): map<string, ButtonType> {
    BuildLookup(Values())
  }

  /** `getButtonTypeByString`: the variant whose `type` is `s`, or null. */
  function GetButtonTypeByString(s: string): (r: Option<ButtonType>)
    ensures r.Some? ==> r.value.Type() == s
    ensures r.None? <==> s != "callback" && s != "url"
  {
    var table := ButtonTypeTable();
    if s in table then Some(table[s]) else None
  }

  /** Looking up a variant's own `type` string yields that variant. */
  lemma RoundTrip(bt: ButtonType)
    ensures GetButtonTypeByString(bt.Type()) == Some(bt)
  {
  }

  /** Distinct variants have distinct `type` strings. */
  lemma TypeIsInjective(a: ButtonType, b: ButtonType)
    ensures a.Type() == b.Type() ==> a == b
  {
  }

  /** The lookup table holds exactly the two `type` strings, each mapped back to its own variant. */
  lemma TableHasTwoEntries()
    ensures ButtonTypeTable().Keys == {"callback", "url"}
    ensures |ButtonTypeTable()| == 2
    ensures ButtonTypeTable()["callback"] == Callback && ButtonTypeTable()["url"] == Url
  {
  }

  /** Strings other than the two `type` strings (compared case-sensitively) find nothing. */
  lemma OtherStringsAreAbsent(s: string)
    requires s != "callback" && s != "url"
    ensures GetButtonTypeByString(s) == None
  {
  }
}
