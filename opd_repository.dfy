/** Persistence of OPD tokens and completed visits (opd.repository). */
module OpdRepo {
  import opened Common
  import opened Models
  import opened DataSync

  const TokensKey: string := "opd_tokens"
  const VisitsKey: string := "opd_visits"

  class OpdRepository {
    const store: DataSyncService<Doc>

    constructor(store: DataSyncService<Doc>)
      ensures this.store == store
    {
      this.store := store;
    }

    /** `getTokens()`: the stored token list, or none. */
    function GetTokens(): (ts: seq<OpdToken>)
      reads store
      ensures ts == [] || (TokensKey in store.items && store.items[TokensKey] == Json(TokenList(ts)))
      ensures TokensKey in store.items && store.items[TokensKey].Json? && store.items[TokensKey].value.TokenList? ==>
        ts == store.items[TokensKey].value.tokens
    {
      var d := store.GetItem(TokensKey, TokenList([]));
      if d.TokenList? then d.tokens else []
    }

    /** `getVisits()`: the stored visit list, or none. */
    function GetVisits(): (vs: seq<Visit>)
      reads store
      ensures vs == [] || (VisitsKey in store.items && store.items[VisitsKey] == Json(VisitList(vs)))
      ensures VisitsKey in store.items && store.items[VisitsKey].Json? && store.items[VisitsKey].value.VisitList? ==>
        vs == store.items[VisitsKey].value.visits
    {
      var d := store.GetItem(VisitsKey, VisitList([]));
      if d.VisitList? then d.visits else []
    }

    /** `saveTokens(tokens)`: replaces the whole token list; the visits stay. */
    method SaveTokens(tokens: seq<OpdToken>, accepted: bool)
      modifies store`items, store`events
      ensures store.Wrote(TokensKey, TokenList(tokens), accepted)
      ensures GetTokens() == if accepted then tokens else old(GetTokens())
      ensures GetVisits() == old(GetVisits())
    {
      store.SetItem(TokensKey, TokenList(tokens), accepted);
    }

    /** `saveVisits(visits)`: replaces the whole visit list; the tokens stay. */
    method SaveVisits(visits: seq<Visit>, accepted: bool)
      modifies store`items, store`events
      ensures store.Wrote(VisitsKey, VisitList(visits), accepted)
      ensures GetVisits() == if accepted then visits else old(GetVisits())
      ensures GetTokens() == old(GetTokens())
    {
      store.SetItem(VisitsKey, VisitList(visits), accepted);
    }

    /** `addVisit(visit)`: appends one visit to the stored list. */
    method AddVisit(visit: Visit, accepted: bool)
      modifies store`items, store`events
      ensures store.Wrote(VisitsKey, VisitList(old(GetVisits()) + [visit]), accepted)
      ensures GetVisits() == if accepted then old(GetVisits()) + [visit] else old(GetVisits())
      ensures GetTokens() == old(GetTokens())
    {
      var visits := GetVisits();
      SaveVisits(visits + [visit], accepted);
    }
  }
}
