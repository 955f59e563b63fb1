/**
 * The static pesticide table of the page: for each crop key, an ordered list
 * of pesticides with the dosage per acre (kg or L) and the cost per unit.
 */
module Catalog {

  datatype Entry = Entry(name: string, dosage: real, costPerUnit: real)

  const PesticideData: map<string, seq<Entry>> := map[
    "wheat" := [
      Entry("Chlorpyrifos", 2.0, 500.0),
      Entry("Malathion", 1.5, 450.0),
      Entry("Deltamethrin", 1.0, 600.0)],
    "rice" := [
      Entry("Carbaryl", 2.5, 400.0),
      Entry("Fipronil", 1.8, 750.0),
      Entry("Buprofezin", 1.2, 550.0)],
    "maize" := [
      Entry("Imidacloprid", 1.5, 700.0),
      Entry("Thiamethoxam", 1.2, 620.0),
      Entry("Lambda-Cyhalothrin", 1.8, 500.0)],
    "potato" := [
      Entry("Mancozeb", 2.2, 450.0),
      Entry("Metalaxyl", 1.5, 800.0),
      Entry("Propamocarb", 1.8, 650.0)],
    "cotton" := [
      Entry("Acephate", 2.3, 550.0),
      Entry("Cypermethrin", 1.5, 480.0),
      Entry("Thiodicarb", 1.8, 600.0)],
    "sugarcane" := [
      Entry("Chlorantraniliprole", 2.0, 750.0),
      Entry("Flubendiamide", 1.4, 670.0),
      Entry("Tebuconazole", 1.6, 580.0)],
    "soybeans" := [
      Entry("Lambda-Cyhalothrin", 2.1, 520.0),
      Entry("Dimethoate", 1.3, 490.0),
      Entry("Pyriproxyfen", 1.7, 650.0)],
    "tomato" := [
      Entry("Spinosad", 2.2, 700.0),
      Entry("Abamectin", 1.5, 620.0),
      Entry("Difenoconazole", 1.8, 590.0)]
  ]

  /** A usable entry: positive dosage and cost. */
  predicate Positive(e: Entry)
  {
    e.dosage > 0.0 && e.costPerUnit > 0.0
  }

  /** The entries for a crop; a key the table lacks gives the empty list. */
  function Lookup(crop: string): (es: seq<Entry>)
    ensures crop in PesticideData ==> es == PesticideData[crop]
    ensures crop !in PesticideData ==> es == []
    ensures forall i :: 0 <= i < |es| ==> Positive(es[i])
  {
    CatalogWellFormed();
    if crop in PesticideData then PesticideData[crop] else []
  }

  /** The table has the eight crops, each with three usable entries. */
  lemma CatalogWellFormed()
    ensures PesticideData.Keys == {"wheat", "rice", "maize", "potato", "cotton", "sugarcane", "soybeans", "tomato"}
    ensures forall crop | crop in PesticideData :: |PesticideData[crop]| == 3
    ensures forall crop, i | crop in PesticideData && 0 <= i < |PesticideData[crop]| :: Positive(PesticideData[crop][i])
  {
  }
}
