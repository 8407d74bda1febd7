/** The care-alert dialog: its title, whether the target selector is shown,
    the selector's options, and when the "Log Alert" button is enabled. */
module Incident {
  import opened Wrappers
  import Text

  /** The fields of a `Pet` or `GuestPet` the dialog reads. */
  datatype PetRef = PetRef(id: string, name: string)

  datatype GuestPet = GuestPet(id: string, name: string, breed: string)

  /** The option value for an alert not tied to a pet. */
  const General: string := "general"

  /** "Log Alert" is enabled when `incidentText.trim()` is non-empty. */
  predicate LogEnabled(text: string) {
    Text.Trim(text) != ""
  }

  /** ... which is exactly when the text has a character that is not whitespace. */
  lemma LogEnabledIff(text: string)
    ensures LogEnabled(text) <==> exists i :: 0 <= i < |text| && !Text.IsJsWhitespace(text[i])
  {
    Text.TrimEmptyIff(text);
  }

  /** The target selector appears only when the dialog was opened without a pet. */
  predicate TargetSelectorShown(selectedPet: Option<PetRef>) {
    selectedPet.None?
  }

  /** The selector appears only when the title falls back to the general operation. */
  lemma SelectorMatchesTitle(selectedPet: Option<PetRef>)
    ensures TargetSelectorShown(selectedPet) ==> Title(selectedPet) == "Log Care Alert: General Operation"
  {
  }

  /** The guest ids, in guest order. */
  function GuestIds(guests: seq<GuestPet>): (r: seq<string>)
    ensures |r| == |guests|
    ensures forall i :: 0 <= i < |guests| ==> r[i] == guests[i].id
  {
    if guests == [] then [] else [guests[0].id] + GuestIds(guests[1..])
  }

  /** The values of the target selector: `general`, then each guest's id. */
  function TargetOptions(guests: seq<GuestPet>): (r: seq<string>)
    ensures |r| == |guests| + 1
    ensures r[0] == General
    ensures forall i :: 0 <= i < |guests| ==> r[i + 1] == guests[i].id
  {
    [General] + GuestIds(guests)
  }

  /** The dialog title: the selected pet's name, or "General Operation". */
  function Title(selectedPet: Option<PetRef>): (r: string)
    ensures selectedPet.Some? && selectedPet.value.name != "" ==> r == "Log Care Alert: " + selectedPet.value.name
    ensures selectedPet.None? || selectedPet.value.name == "" ==> r == "Log Care Alert: General Operation"
  {
    "Log Care Alert: " + (if selectedPet.Some? && selectedPet.value.name != "" then selectedPet.value.name else "General Operation")
  }
}
