/**
 * The static catalogue: the record types of the application and the mission
 * and material lists it ships with. Nothing here is ever mutated.
 */
module Catalog {

  /** The self-reported student profile filled in at onboarding. */
  datatype User = User(username: string, email: string, major: string, course: string)

  /** A mission definition; the narrative texts, requirement list and icon are
      display-only and are not carried. */
  datatype Mission = Mission(id: string, title: string, xp: int, optimalMaterial: string)

  /** A printable material; description and property texts are display-only. */
  datatype Material = Material(id: string, name: string)

  const Missions: seq<Mission> := [
    Mission("m01", "Adaptador para Cubiertos", 100, "PLA"),
    Mission("m02", "Pulsador de Botón Grande", 150, "ABS"),
    Mission("m03", "Soporte para Lápiz Personalizado", 200, "PETG")
  ]

  const Materials: seq<Material> := [
    Material("PLA", "PLA (Ácido Poliláctico)"),
    Material("ABS", "ABS (Acrilonitrilo Butadieno Estireno)"),
    Material("PETG", "PETG (Glicol de Tereftalato de Polietileno)")
  ]

  /** Mission m01, whose optimal material is PLA. */
  const CutleryAdapter: Mission := Missions[0]

  /** The mission ids are distinct and every optimal material is a catalogued
      material, so a mission's optimal material can always be chosen. */
  lemma CatalogWellFormed()
    ensures forall i, j :: 0 <= i < j < |Missions| ==> Missions[i].id != Missions[j].id
    ensures forall i :: 0 <= i < |Missions| ==>
      exists k :: 0 <= k < |Materials| && Materials[k].id == Missions[i].optimalMaterial
  {
    assert Materials[0].id == Missions[0].optimalMaterial;
    assert Materials[1].id == Missions[1].optimalMaterial;
    assert Materials[2].id == Missions[2].optimalMaterial;
  }
}
