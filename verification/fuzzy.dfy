/**
 * The Fuse.js fuzzy matcher, kept uninterpreted. A matcher takes the options
 * a call site passes to `new Fuse(...)`, the query given to `search`, and the
 * candidate list, and returns the matched items best first. Its scoring is
 * not modelled; the properties that need it assume one of the predicates
 * below explicitly.
 */
module Fuzzy {
  import opened Text

  /** The document keys a call site asks Fuse to search. */
  datatype SearchKey =
    | OwnerKey | CompanyKey | TypeKey | KeywordsKey | SummaryKey | TextContentKey | CountryKey | FileNameKey

  /**
   * The options object. `threshold` keeps the source's literal in hundredths
   * (0.2 is 20); it is an opaque label here, not a score.
   */
  datatype FuseOptions = FuseOptions(keys: seq<SearchKey>, threshold: nat, ignoreLocation: bool)

  type Matcher<!T> = (FuseOptions, string, seq<T>) -> seq<T>

  /** Fuse only ever returns items of the list it was built over. */
  ghost predicate DrawsFromCandidates<T(!new)>(m: Matcher<T>) {
    forall o, q, c, x :: x in m(o, q, c) ==> x in c
  }

  /**
   * A query equal to one of the candidate strings has at least one hit (an
   * exact match scores 0), unless it is blank: Fuse does not index strings
   * whose trim is empty, so those are never found.
   */
  ghost predicate FindsExactValues(m: Matcher<string>) {
    forall o, q, c :: q in c && !IsBlank(q) ==> |m(o, q, c)| > 0
  }

  /** A matcher that never reports a hit: every fuzzy lookup falls back to its miss branch. */
  ghost predicate NeverMatches<T(!new)>(m: Matcher<T>) {
    forall o, q, c :: |m(o, q, c)| == 0
  }

  /** Canonical-name lookup (`findCanonicalName`): strict, location-independent. */
  const CanonicalOptions := FuseOptions([], 20, true)

  /** Matching a document's field against the selected filter values: strict, location-independent. */
  const FilterMatchOptions := FuseOptions([], 20, true)

  /** The sub-search box above a category's option list. */
  const OptionSearchOptions := FuseOptions([], 30, false)

  /** The submitted full-text query of the documents page. */
  const DocumentSearchOptions :=
    FuseOptions([OwnerKey, CompanyKey, TypeKey, KeywordsKey, SummaryKey, TextContentKey, CountryKey], 40, false)

  /** The documents page's AI-search handler, which also searches the file name. */
  const AiSearchOptions :=
    FuseOptions([OwnerKey, CompanyKey, TypeKey, KeywordsKey, SummaryKey, TextContentKey, CountryKey, FileNameKey], 40, false)
}
