/** Values shared by the pages: optional values, the `{ id, name }` records the
    backend returns for scripts and markets (and their lookup by name), and the
    numeric text boxes of the signal forms. */
module Common {

  datatype Option<T> = None | Some(value: T)

  /** One element of a fetched `{ id, name }` list (scripts or markets). */
  datatype Entry = Entry(id: int, name: string)

  predicate HasName(list: seq<Entry>, name: string) {
    exists i :: 0 <= i < |list| && list[i].name == name
  }

  /** `i` is the position of the first entry of `list` called `name`. */
  predicate IsFirstWithName(list: seq<Entry>, name: string, i: int) {
    0 <= i < |list| && list[i].name == name &&
    forall j :: 0 <= j < i ==> list[j].name != name
  }

  /** `list.find(e => e.name === name)`: the first entry called `name`, if any. */
  function FindByName(list: seq<Entry>, name: string): (r: Option<Entry>)
    ensures r.None? <==> !HasName(list, name)
    ensures r.Some? ==> exists i :: IsFirstWithName(list, name, i) && r.value == list[i]
  {
    if |list| == 0 then None
    else if list[0].name == name then
      assert IsFirstWithName(list, name, 0);
      Some(list[0])
    else
      var r := FindByName(list[1..], name);
      assert HasName(list, name) ==> HasName(list[1..], name) by {
        if HasName(list, name) {
          var i :| 0 <= i < |list| && list[i].name == name;
          assert i != 0 && list[1..][i - 1].name == name;
        }
      }
      assert r.Some? ==> exists i :: IsFirstWithName(list, name, i) && r.value == list[i] by {
        if r.Some? {
          var i :| IsFirstWithName(list[1..], name, i) && r.value == list[1..][i];
          assert IsFirstWithName(list, name, i + 1);
        }
      }
      r
  }

  /** The content of a numeric text box: empty, or a number (the text-to-number
      conversion itself is abstracted to an `int`). */
  datatype NumberInput = Blank | Typed(n: int)

  /** `value === "" ? 0 : parseFloat(value)` and `Number(value)`: a box reads as 0
      exactly when it is empty or holds 0. */
  function ReadNumber(input: NumberInput): (n: int)
    ensures n == 0 <==> input == Blank || input == Typed(0)
    ensures input.Typed? ==> n == input.n
  {
    match input
    case Blank => 0
    case Typed(n) => n
  }

  /** `field === 0 ? "" : field`: what a numeric box of the add-signal form shows. */
  function Shown(v: int): (shown: NumberInput)
    ensures shown.Blank? <==> v == 0
    ensures ReadNumber(shown) == v
  {
    if v == 0 then Blank else Typed(v)
  }

  /** Showing a stored number and reading the box back gives the number again, and a
      box read and shown again is unchanged unless it held a typed 0. */
  lemma ShownRoundTrip(v: int, input: NumberInput)
    ensures ReadNumber(Shown(v)) == v
    ensures Shown(ReadNumber(input)) == input <==> input != Typed(0)
  {
  }
}
