/** The lead store as both services use it: one record per email address.
    Saving after the phone step inserts or merges; the proposal task only
    merges into a record that already exists. The database connection is a
    flag: when it is missing nothing is written and the call reports
    failure; neither call ever raises. */
module LeadStore {

  /** A lead record: field name -> value. */
  type Lead = map<string, string>

  /** The collection, keyed by email address. */
  type Store = map<string, Lead>

  const EmailField := "email"

  /** `save_lead`: an upsert keyed by the lead's address, merging the given
      fields over the stored ones. A lead without an address, or a missing
      connection, writes nothing and reports failure. */
  function SaveLead(store: Store, connected: bool, lead: Lead): (r: (Store, bool))
    ensures r.1 <==> connected && EmailField in lead
    ensures !r.1 ==> r.0 == store
    ensures r.1 ==> var e := lead[EmailField];
      r.0.Keys == store.Keys + {e}
      && r.0[e].Keys == lead.Keys + (if e in store then store[e].Keys else {})
      && (forall k :: k in lead ==> k in r.0[e] && r.0[e][k] == lead[k])
      && (e in store ==> forall k :: k in store[e] && k !in lead ==> k in r.0[e] && r.0[e][k] == store[e][k])
      && (forall other :: other in store && other != e ==> r.0[other] == store[other])
  {
    if !connected || EmailField !in lead then (store, false)
    else
      var e := lead[EmailField];
      var stored := if e in store then store[e] else map[];
      (store[e := stored + lead], true)
  }

  /** `update_lead_details`: merges into the record of `email` when there is
      one and never creates a record. It reports success whenever the
      database is connected, matched or not. */
  function UpdateLead(store: Store, connected: bool, email: string, details: Lead): (r: (Store, bool))
    ensures r.1 == connected
    ensures r.0.Keys == store.Keys
    ensures email !in store || !connected ==> r.0 == store
    ensures connected && email in store ==>
      r.0[email].Keys == store[email].Keys + details.Keys
      && (forall k :: k in details ==> k in r.0[email] && r.0[email][k] == details[k])
      && (forall k :: k in store[email] && k !in details ==> k in r.0[email] && r.0[email][k] == store[email][k])
    ensures forall other :: other in store && other != email ==> r.0[other] == store[other]
  {
    if connected && email in store then (store[email := store[email] + details], true)
    else (store, connected)
  }

  /** Saving the same lead twice stores what saving it once does. */
  lemma SaveIdempotent(store: Store, connected: bool, lead: Lead)
    ensures SaveLead(SaveLead(store, connected, lead).0, connected, lead) == SaveLead(store, connected, lead)
  {
    if connected && EmailField in lead {
      var e := lead[EmailField];
      var once := SaveLead(store, connected, lead).0;
      assert once[e] + lead == once[e];
      assert once[e := once[e] + lead] == once;
    }
  }

  /** A saved lead can be updated: after a successful save the record of its
      address exists, so the later update merges into it. An update alone,
      on an empty store, stores nothing. */
  lemma UpdateNeedsSave(store: Store, lead: Lead, details: Lead)
    requires EmailField in lead
    ensures var saved := SaveLead(store, true, lead).0;
      var e := lead[EmailField];
      e in saved && (forall k :: k in details ==> UpdateLead(saved, true, e, details).0[e][k] == details[k])
    ensures UpdateLead(map[], true, lead[EmailField], details).0 == map[]
  {
  }
}
