/** Entity ids, language codes and the terms an entity carries. */
module Terms {
  /** An entity id, by its serialization (`Q42`, `P1`). */
  type EntityId = string
  type LanguageCode = string

  /** The labels, descriptions and alias groups of an entity, keyed by language code. */
  datatype Fingerprint = Fingerprint(
    labels: map<LanguageCode, string>,
    descriptions: map<LanguageCode, string>,
    aliases: map<LanguageCode, seq<string>>)

  const EmptyFingerprint := Fingerprint(map[], map[], map[])
}
