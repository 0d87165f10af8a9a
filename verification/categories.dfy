/**
 * Categories: the domain entity, its document-database shape, and the mapper
 * `CategoryMongoEntityMapper` that renames the identifier between them
 * (`id` in the domain, `_id` in the document).
 */
module Categories {

  /** An instant, kept opaque: the mapper only copies it. */
  type Timestamp = int

  /** `CategoryEntity`: the domain view of a category. */
  datatype CategoryEntity = CategoryEntity(id: string, name: string, createdAt: Timestamp)

  /** `CategoryMongoEntity`: the stored document; `documentId` is the document's `_id`. */
  datatype CategoryMongoEntity = CategoryMongoEntity(documentId: string, name: string, createdAt: Timestamp)

  /** `toDatabaseEntity`: builds the document for a domain entity. */
  function ToDatabaseEntity(e: CategoryEntity): (m: CategoryMongoEntity)
    ensures m.documentId == e.id
    ensures m.name == e.name && m.createdAt == e.createdAt
  {
    CategoryMongoEntity(documentId := e.id, createdAt := e.createdAt, name := e.name)
  }

  /** `toDomainEntity`: builds the domain entity for a stored document. */
  function ToDomainEntity(m: CategoryMongoEntity): (e: CategoryEntity)
    ensures e.id == m.documentId
    ensures e.name == m.name && e.createdAt == m.createdAt
    ensures ToDatabaseEntity(e) == m
  {
    CategoryEntity(name := m.name, createdAt := m.createdAt, id := m.documentId)
  }

  /** A domain entity survives a trip through the database shape unchanged. */
  lemma DomainRoundTrip(e: CategoryEntity)
    ensures ToDomainEntity(ToDatabaseEntity(e)) == e
  {
  }

  /** A stored document survives a trip through the domain shape unchanged. */
  lemma DatabaseRoundTrip(m: CategoryMongoEntity)
    ensures ToDatabaseEntity(ToDomainEntity(m)) == m
  {
  }

  /** Both conversions are injective: distinct inputs never collapse to one output. */
  lemma MappersInjective(e1: CategoryEntity, e2: CategoryEntity, m1: CategoryMongoEntity, m2: CategoryMongoEntity)
    ensures ToDatabaseEntity(e1) == ToDatabaseEntity(e2) ==> e1 == e2
    ensures ToDomainEntity(m1) == ToDomainEntity(m2) ==> m1 == m2
  {
  }
}
