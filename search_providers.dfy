/**
 * The provider search page: it loads every provider once and filters them
 * in the browser by a location text typed by the patient.
 */
module SearchProviders {
  import opened JsValues
  import opened JsString
  import opened JsArray
  import opened Entities

  const LoadErrorMessage: string := "Could not load providers from the server."

  /** `p.location || ""` */
  function LocationText(p: Provider): string
  {
    if Truthy(p.location) then p.location.value else ""
  }

  /**
   * The filter's test for one provider: an empty filter accepts everyone;
   * otherwise the lower-cased location must contain the lower-cased filter.
   */
  predicate MatchesLocation(filter: string, p: Provider)
  {
    filter == "" || Includes(ToLower(LocationText(p)), ToLower(filter))
  }

  /** The `filtered` list the page renders. */
  function Filtered(providers: seq<Provider>, filter: string): (r: seq<Provider>)
    ensures IsSubsequence(r, providers)
    ensures forall i :: 0 <= i < |r| ==> MatchesLocation(filter, r[i])
    ensures forall p :: multiset(r)[p] == if MatchesLocation(filter, p) then multiset(providers)[p] else 0
  {
    Filter(providers, p => MatchesLocation(filter, p))
  }

  /** A provider is shown exactly when it is loaded and its location matches. */
  lemma FilteredMembership(providers: seq<Provider>, filter: string, p: Provider)
    ensures p in Filtered(providers, filter) <==> p in providers && MatchesLocation(filter, p)
  {
    FilterMembership(providers, q => MatchesLocation(filter, q), p);
  }

  /** An empty filter shows every provider, in order. */
  lemma EmptyFilterKeepsAll(providers: seq<Provider>)
    ensures Filtered(providers, "") == providers
  {
    FilterKeepsAll(providers, p => MatchesLocation("", p));
  }

  /** With a non-empty filter, a provider without a location (or with an empty one) is never shown. */
  lemma MissingLocationDropped(providers: seq<Provider>, filter: string, p: Provider)
    requires filter != ""
    requires !Truthy(p.location)
    ensures p !in Filtered(providers, filter)
  {
    IncludesBounds("", ToLower(filter));
    FilteredMembership(providers, filter, p);
  }

  /** The filter ignores the letter case of what the patient types. */
  lemma FilterIgnoresCase(providers: seq<Provider>, filter: string)
    ensures Filtered(providers, filter) == Filtered(providers, ToLower(filter))
  {
    ToLowerIdempotent(filter);
    FilterCongruent(providers, p => MatchesLocation(filter, p), p => MatchesLocation(ToLower(filter), p));
  }

  /** "No providers found" shows only when nothing is loading, there is no error and nothing passes the filter. */
  predicate ShowsEmptyState(loading: bool, err: string, filtered: seq<Provider>)
  {
    !loading && err == "" && |filtered| == 0
  }

  class ProviderSearch {
    var providers: seq<Provider>
    var loading: bool
    var err: string
    var locationFilter: string

    constructor ()
      ensures providers == [] && loading && err == "" && locationFilter == ""
    {
      providers := [];
      loading := true;
      err := "";
      locationFilter := "";
    }

    /** The input's `onChange`. */
    method SetLocationFilter(text: string)
      modifies this
      ensures locationFilter == text
      ensures providers == old(providers) && loading == old(loading) && err == old(err)
    {
      locationFilter := text;
    }

    /**
     * `loadProviders`: a reply with `res.ok` and a parsed body replaces the
     * list by its `items` array (or by `[]`); any other outcome keeps the
     * list and sets the error. Loading ends either way.
     */
    method LoadProviders(reply: Fetched<ListBody<Provider>>)
      modifies this
      ensures !loading && locationFilter == old(locationFilter)
      ensures HttpOkWithBody(reply) ==> providers == ItemsOrEmpty(reply.body.value) && err == ""
      ensures !HttpOkWithBody(reply) ==> providers == old(providers) && err == LoadErrorMessage
      ensures ShowsEmptyState(loading, err, Filtered(providers, locationFilter)) <==>
              HttpOkWithBody(reply) && Filtered(providers, locationFilter) == []
    {
      loading := true;
      err := "";
      if !HttpOkWithBody(reply) {
        err := LoadErrorMessage;
      } else {
        providers := ItemsOrEmpty(reply.body.value);
      }
      loading := false;
    }
  }
}
