/** The schema digest handed to the LLM and its module-level cache, plus the
    fixed schema lookups (server/nlq/schemaDigest.ts). The digest text itself
    is a constant of the cache: its content is not modelled. */
module SchemaDigest {
  import opened Wrappers

  /** The module-level `cachedDigest` together with the text that
      `generateSchemaDigest` produces. `generations` counts the calls to the
      generator, so the cache's effect can be stated. */
  class DigestCache {
    const text: string
    var cached: Option<string>
    var generations: nat

    /** The cache is empty or holds the generated text. */
    predicate Valid()
      reads this
    {
      cached.None? || cached == Some(text)
    }

    /** The module as first loaded: `cachedDigest = null`. */
    constructor (text: string)
      ensures this.text == text && cached.None? && generations == 0
      ensures Valid()
    {
      this.text := text;
      cached := None;
      generations := 0;
    }

    /** `getSchemaDigest`: generate when the cache is empty (or holds the
        falsy ""), then return the cached string. A filled cache is returned
        as it is, without calling the generator. */
    method GetSchemaDigest() returns (r: string)
      requires Valid()
      modifies this
      ensures Valid()
      ensures r == text && cached == Some(text)
      ensures old(cached) == Some(text) && text != "" ==> generations == old(generations)
      ensures old(cached).None? || text == "" ==> generations == old(generations) + 1
    {
      if cached.None? || cached.value == "" {
        cached := Some(text);
        generations := generations + 1;
      }
      r := cached.value;
    }

    /** `clearSchemaDigestCache`: the next call regenerates. */
    method ClearSchemaDigestCache()
      modifies this
      ensures cached.None? && generations == old(generations)
      ensures Valid()
    {
      cached := None;
    }
  }

  const EntityTypes: seq<string> := ["Person", "Drug", "Disease"]
  const RelationshipTypes: seq<string> := ["RESEARCHES", "TREATS"]

  /** `getEntityTypes`: three distinct entity types. */
  function GetEntityTypes(): (r: seq<string>)
    ensures |r| == 3 && r[0] != r[1] && r[1] != r[2] && r[0] != r[2]
    ensures "Person" in r && "Drug" in r && "Disease" in r
  {
    EntityTypes
  }

  /** `getRelationshipTypes`: two distinct relationship types. */
  function GetRelationshipTypes(): (r: seq<string>)
    ensures |r| == 2 && r[0] != r[1]
    ensures "RESEARCHES" in r && "TREATS" in r
  {
    RelationshipTypes
  }

  /** `getEntityFields`: the field list of a known type, else ["id", "name"]. */
  function GetEntityFields(entityType: string): (r: seq<string>)
    ensures |r| >= 2 && r[..2] == ["id", "name"]
    ensures entityType in EntityTypes <==> |r| == 4
    ensures entityType !in EntityTypes ==> r == ["id", "name"]
    ensures entityType == "Person" ==> r[2..] == ["aliases", "affiliation"]
    ensures entityType == "Drug" ==> r[2..] == ["description", "approvalDate"]
    ensures entityType == "Disease" ==> r[2..] == ["description", "symptoms"]
  {
    if entityType == "Person" then ["id", "name", "aliases", "affiliation"]
    else if entityType == "Drug" then ["id", "name", "description", "approvalDate"]
    else if entityType == "Disease" then ["id", "name", "description", "symptoms"]
    else ["id", "name"]
  }
}
