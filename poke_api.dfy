/**
 * The shapes of the PokeAPI responses that the two pages read, cut down to
 * the fields whose values drive a decision in the pages.
 */
module PokeApi {

  /** One `{name, url}` element of a list response (`results`). */
  datatype CatalogEntry = CatalogEntry(name: string, url: string)

  /** A detail record from `/pokemon/<id-or-name>`: its `id`, `name` and `species.url`. */
  datatype Pokemon = Pokemon(id: int, name: string, speciesUrl: string)

  /** One element of `flavor_text_entries`: `language.name` and `flavor_text`. */
  datatype FlavorEntry = FlavorEntry(language: string, text: string)

  /** A species record: its ordered `flavor_text_entries`. */
  datatype Species = Species(flavorTextEntries: seq<FlavorEntry>)

}
