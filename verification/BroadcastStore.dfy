/** A room's broadcast tables: guarded, transactional application of versioned publications. */
module BroadcastStore {
  import opened Common
  import opened Assets

  /** Keys of the one configuration table, by the prefix or name they carry there. */
  datatype Key = AppliedRevision(source: string) | Shared(name: string) | PushedState | StartedAt(mode: string)
      | RoomLocal(name: string)
  datatype Value = Text(text: string) | Number(number: int)

  datatype Store = Store(config: map<Key, Value>, pages: seq<Page>, fonts: seq<Font>)
  datatype Outcome = Applied(store: Store) | Stale | Rejected

  function Revision(config: map<Key, Value>, source: string): int {
    match Get(config, AppliedRevision(source), Number(0))
    case Number(n) => n
    case Text(_) => 0
  }

  function ItemIds(pages: seq<Page>): seq<int> {
    if pages == [] then [] else
      var last := pages[|pages| - 1];
      ItemIds(pages[..|pages| - 1]) + seq(|last.items|, i requires 0 <= i < |last.items| => last.items[i].id)
  }

  function PageIds(pages: seq<Page>): seq<int> {
    seq(|pages|, i requires 0 <= i < |pages| => pages[i].id)
  }

  function FontIds(fonts: seq<Font>): seq<int> {
    seq(|fonts|, i requires 0 <= i < |fonts| => fonts[i].id)
  }

  function FontNames(fonts: seq<Font>): seq<string> {
    seq(|fonts|, i requires 0 <= i < |fonts| => fonts[i].filename)
  }

  /** The constraints of the three content tables. */
  ghost predicate Insertable(snapshot: Snapshot) {
    && Distinct(PageIds(snapshot.pages)) && Distinct(ItemIds(snapshot.pages))
    && Distinct(FontIds(snapshot.fonts)) && Distinct(FontNames(snapshot.fonts))
  }

  predicate CarriesContent(action: Action) {
    action == Sync || action == Start
  }

  function WithShared(config: map<Key, Value>, snapshot: Snapshot): map<Key, Value> {
    config
      [Shared("active_font") := Text(Get(snapshot.config, "active_font", ""))]
      [Shared("countdown_target") := Text(Get(snapshot.config, "countdown_target", ""))]
      [Shared("reference_width") := Text(Get(snapshot.config, "reference_width", ""))]
  }

  function WithAction(config: map<Key, Value>, action: Action, mode: string, now: int): map<Key, Value> {
    match action
    case Start => config[PushedState := Text(mode)][StartedAt(mode) := Number(now)]
    case Stop => config[PushedState := Text("")]
    case Reset => config[StartedAt(mode) := Number(now)]
    case _ => config
  }

  /** The transaction as one step: nothing at all changes unless it commits. */
  ghost function Apply(store: Store, snapshot: Snapshot, action: Action, mode: string, now: int): Outcome {
    var key := AppliedRevision(snapshot.source);
    if key in store.config && Revision(store.config, snapshot.source) >= snapshot.revision then Stale
    else if action == Unrecognised || (CarriesContent(action) && !Insertable(snapshot)) then Rejected
    else
      var config := store.config[key := Number(snapshot.revision)];
      if CarriesContent(action) then
        Applied(Store(WithAction(WithShared(config, snapshot), action, mode, now), snapshot.pages, snapshot.fonts))
      else
        Applied(store.(config := WithAction(config, action, mode, now)))
  }

  class BroadcastRepo {
    var config: map<Key, Value>
    var pages: seq<Page>
    var fonts: seq<Font>

    ghost function Tables(): Store
      reads this
    {
      Store(config, pages, fonts)
    }

    method ApplySnapshot(snapshot: Snapshot, action: Action, mode: string, now: int) returns (applied: bool, ok: bool)
      modifies this
      ensures Apply(old(Tables()), snapshot, action, mode, now)
                == (if applied then Applied(Tables()) else if ok then Stale else Rejected)
      ensures applied ==> ok
      ensures !applied ==> Tables() == old(Tables())
    {
      var key := AppliedRevision(snapshot.source);
      if key in config && Revision(config, snapshot.source) >= snapshot.revision {
        return false, true;
      }
      var updated := config[key := Number(snapshot.revision)];
      var newPages, newFonts := pages, fonts;
      if CarriesContent(action) {
        var pagesOk := InsertUnique(PageIds(snapshot.pages));
        var itemsOk := InsertUnique(ItemIds(snapshot.pages));
        var fontsOk := InsertUnique(FontIds(snapshot.fonts));
        var namesOk := InsertUnique(FontNames(snapshot.fonts));
        if !(pagesOk && itemsOk && fontsOk && namesOk) {
          return false, false;
        }
        newPages, newFonts := snapshot.pages, snapshot.fonts;
        updated := WithShared(updated, snapshot);
      }
      if action == Unrecognised {
        return false, false;
      }
      config, pages, fonts := WithAction(updated, action, mode, now), newPages, newFonts;
      return true, true;
    }

    /** Checks, fetches and applies a received publication; `env` holds what the surroundings answered. */
    method ApplyBroadcast(received: Option<Publication>, env: Surroundings) returns (status: int, commanded: bool)
      modifies this
      ensures Reply(Tables(), status, commanded) == Respond(old(Tables()), received, env)
      ensures received.None? ==> status == 400 && !commanded && Tables() == old(Tables())
      ensures received.Some? ==> Statuses(old(Tables()), received.value, env, status, commanded)
    {
      StatusesAre(Tables(), received, env);
      hide Statuses, Succeeds;
      if received.None? {
        return 400, false;
      }
      var pub := received.value;
      if !env.sourceIsUuid || pub.snapshot.revision <= 0 || !ValidMode(pub.mode) || pub.action == Unrecognised {
        return 400, false;
      }
      if !env.readable {
        return 500, false;
      }
      if Revision(config, pub.snapshot.source) >= pub.snapshot.revision {
        return 200, false;
      }
      var accepted := CheckManifest(pub);
      if !accepted || (pub.action == Start && !env.baseUrlOk) {
        return 400, false;
      }
      if |pub.assets| != 0 {
        if !env.folderOk {
          return 500, false;
        }
        if !env.pullOk {
          return 503, false;
        }
      }
      if !env.sameDeployment {
        return 409, false;
      }
      hide Accepted, Insertable;
      var applied, ok := ApplySnapshot(pub.snapshot, pub.action, pub.mode, env.now);
      if !ok {
        return 500, false;
      }
      if applied && (pub.action == Start || pub.action == Stop) {
        return if env.commandStatus >= 400 then 409 else 200, true;
      }
      return 200, false;
    }

    /** One transaction takes the next revision and reads the content; `read` is None if reading or committing
        failed. */
    method TakeSnapshot(source: string, read: Option<Snapshot>) returns (snapshot: Option<Snapshot>)
      modifies this`config
      ensures Taken(old(Tables()), Tables(), source, snapshot) && (snapshot.Some? <==> read.Some?)
      ensures snapshot.Some? ==> snapshot.value == read.value.(source := source, revision := snapshot.value.revision)
    {
      var key := RoomLocal(COUNTER);
      var revision := if key in config && config[key].Number? then config[key].number + 1 else 1;
      if read.None? {
        return None;
      }
      config := config[key := Number(revision)];
      return Some(read.value.(source := source, revision := revision));
    }
  }

  const COUNTER: string := "cloud_publish_revision"

  /** The last revision taken from these tables; a text that is no number counts as 0. */
  function LastTaken(config: map<Key, Value>): int {
    match Get(config, RoomLocal(COUNTER), Text(""))
    case Number(n) => n
    case Text(_) => 0
  }

  /** Either nothing happens, or the snapshot carries a revision above the last one, which becomes the last; no other
      setting changes. */
  ghost predicate Taken(before: Store, after: Store, source: string, snapshot: Option<Snapshot>) {
    && (snapshot.None? ==> after == before)
    && (snapshot.Some? ==>
          && snapshot.value.source == source
             && LastTaken(before.config) < snapshot.value.revision == LastTaken(after.config)
          && after.pages == before.pages && after.fonts == before.fonts
          && forall key :: key != RoomLocal(COUNTER) ==>
               (key in before.config <==> key in after.config)
                   && (key in before.config ==> after.config[key] == before.config[key]))
  }

  // ----- Numbering -----

  /** A snapshot is taken and becomes a publication, frozen under the snapshot's source and revision. */
  ghost predicate Publishes(before: Store, after: Store, source: string, pub: Publication) {
    exists snapshot :: Taken(before, after, source, Some(snapshot)) && Numbered(pub, snapshot)
  }

  /** A snapshot is taken in vain, or something else happens that leaves the counter alone, such as an edit or the
      application of a publication. */
  ghost predicate PublishesNothing(before: Store, after: Store) {
    LastTaken(before.config) <= LastTaken(after.config)
  }

  /** A publisher's tables over time, with what is published at each step. */
  ghost predicate Publishing(tables: seq<Store>, made: seq<Option<Publication>>, source: string) {
    && |tables| == |made| + 1
    && forall n :: 0 <= n < |made| ==>
         if made[n].Some? then Publishes(tables[n], tables[n + 1], source, made[n].value)
         else PublishesNothing(tables[n], tables[n + 1])
  }

  ghost predicate Numbered(pub: Publication, snapshot: Snapshot) {
    pub.snapshot.source == snapshot.source && pub.snapshot.revision == snapshot.revision
  }

  lemma {:induction false} CounterOnlyGrows(tables: seq<Store>, made: seq<Option<Publication>>, source: string, i: nat,
                                            j: nat)
    requires Publishing(tables, made, source) && i <= j < |tables|
    ensures LastTaken(tables[i].config) <= LastTaken(tables[j].config)
  {
    if i < j {
      CounterOnlyGrows(tables, made, source, i, j - 1);
      assert made[j - 1].Some? || made[j - 1].None?;
    }
  }

  /** Of two publications of one server the later one has the greater revision, so no two have the same. */
  lemma RevisionsIncrease(tables: seq<Store>, made: seq<Option<Publication>>, source: string, i: nat, j: nat)
    requires Publishing(tables, made, source) && i < j < |made| && made[i].Some? && made[j].Some?
    ensures made[i].value.snapshot.revision < made[j].value.snapshot.revision
  {
    PublishedTakesNext(tables, made, source, i);
    CounterOnlyGrows(tables, made, source, i + 1, j);
    PublishedTakesNext(tables, made, source, j);
  }

  lemma PublishedTakesNext(tables: seq<Store>, made: seq<Option<Publication>>, source: string, n: nat)
    requires Publishing(tables, made, source) && n < |made| && made[n].Some?
    ensures LastTaken(tables[n].config) < made[n].value.snapshot.revision == LastTaken(tables[n + 1].config)
    ensures made[n].value.snapshot.source == source
  {
    assert Publishes(tables[n], tables[n + 1], source, made[n].value);
  }

  /** A server that receives publications as well keeps its own numbering: applying one never moves the counter. */
  lemma ApplyingKeepsCounter(store: Store, delivery: Delivery)
    ensures LastTaken(Receive(store, delivery).config) == LastTaken(store.config)
    ensures PublishesNothing(store, Receive(store, delivery))
  {
    AppliedRevisionsIncrease(store, delivery);
    assert Get(Receive(store, delivery).config, RoomLocal(COUNTER), Text(""))
             == Get(store.config, RoomLocal(COUNTER), Text(""));
  }

  /** One publication reaching the room, at some local time. */
  datatype Delivery = Delivery(pub: Publication, now: int)

  ghost function Receive(store: Store, delivery: Delivery): Store {
    match Apply(store, delivery.pub.snapshot, delivery.pub.action, delivery.pub.mode, delivery.now)
    case Applied(s) => s
    case _ => store
  }

  /** Neither an unknown action nor content that violates a table constraint. */
  ghost predicate Appliable(pub: Publication) {
    pub.action != Unrecognised && (CarriesContent(pub.action) ==> Insertable(pub.snapshot))
  }

  /** Every field that the publication's action writes holds what it writes; start times hold `now`. */
  ghost predicate Shows(store: Store, pub: Publication, now: int) {
    && AppliedRevision(pub.snapshot.source) in store.config
    && Revision(store.config, pub.snapshot.source) == pub.snapshot.revision
    && (CarriesContent(pub.action) ==>
          && store.pages == pub.snapshot.pages && store.fonts == pub.snapshot.fonts
          && forall name | name in ["active_font", "countdown_target", "reference_width"] ::
               Get(store.config, Shared(name), Number(0)) == Text(Get(pub.snapshot.config, name, "")))
    && (pub.action == Start ==> Get(store.config, PushedState, Number(0)) == Text(pub.mode))
    && (pub.action == Stop ==> Get(store.config, PushedState, Number(0)) == Text(""))
    && (pub.action == Start || pub.action == Reset ==> Get(store.config, StartedAt(pub.mode), Text("")) == Number(now))
  }

  /** Each delivery either changes nothing or raises its source's revision to its own; other sources' revisions and
      room-local settings never move. */
  lemma AppliedRevisionsIncrease(store: Store, delivery: Delivery)
    ensures var after := Receive(store, delivery);
            var snapshot := delivery.pub.snapshot;
            && (after == store
                || (&& (AppliedRevision(snapshot.source) in store.config ==>
                        Revision(store.config, snapshot.source) < snapshot.revision)
                    && Appliable(delivery.pub) && Shows(after, delivery.pub, delivery.now)))
            && (forall source :: source != snapshot.source ==>
                Revision(after.config, source) == Revision(store.config, source))
            && (forall name ::
                Get(after.config, RoomLocal(name), Text("")) == Get(store.config, RoomLocal(name), Text("")))
  {
    hide Insertable;
    var pub := delivery.pub;
    match Apply(store, pub.snapshot, pub.action, pub.mode, delivery.now)
    case Applied(after) =>
      WrittenFieldsShow(store, pub, delivery.now, after);
      OtherKeysStay(store, pub, delivery.now, after);
    case _ =>
  }

  lemma WrittenFieldsShow(store: Store, pub: Publication, now: int, after: Store)
    requires Apply(store, pub.snapshot, pub.action, pub.mode, now) == Applied(after)
    ensures Shows(after, pub, now)
  {
    hide Insertable;
  }

  lemma OtherKeysStay(store: Store, pub: Publication, now: int, after: Store)
    requires Apply(store, pub.snapshot, pub.action, pub.mode, now) == Applied(after)
    ensures forall source :: source != pub.snapshot.source ==>
              Revision(after.config, source) == Revision(store.config, source)
    ensures forall name :: Get(after.config, RoomLocal(name), Text("")) == Get(store.config, RoomLocal(name), Text(""))
  {
    hide Insertable;
  }

  function ContentWrites(snapshot: Snapshot): map<Key, Value> {
    map[Shared("active_font") := Text(Get(snapshot.config, "active_font", "")),
        Shared("countdown_target") := Text(Get(snapshot.config, "countdown_target", "")),
        Shared("reference_width") := Text(Get(snapshot.config, "reference_width", ""))]
  }

  function DisplayWrites(action: Action, mode: string, now: int): map<Key, Value> {
    match action
    case Start => map[PushedState := Text(mode), StartedAt(mode) := Number(now)]
    case Stop => map[PushedState := Text("")]
    case Reset => map[StartedAt(mode) := Number(now)]
    case _ => map[]
  }

  /** What a publication writes to the configuration table. */
  function Written(pub: Publication, now: int): map<Key, Value> {
    map[AppliedRevision(pub.snapshot.source) := Number(pub.snapshot.revision)]
    + (if CarriesContent(pub.action) then ContentWrites(pub.snapshot) else map[])
    + DisplayWrites(pub.action, pub.mode, now)
  }

  lemma MergesAssociate<K, V>(a: map<K, V>, b: map<K, V>, c: map<K, V>)
    ensures (a + b) + c == a + (b + c)
  {
  }

  lemma WithActionWrites(config: map<Key, Value>, action: Action, mode: string, now: int)
    ensures WithAction(config, action, mode, now) == config + DisplayWrites(action, mode, now)
  {
  }

  lemma WithSharedWrites(config: map<Key, Value>, snapshot: Snapshot)
    ensures WithShared(config, snapshot) == config + ContentWrites(snapshot)
  {
  }

  /** An application writes exactly those keys, and the content if the action carries it. */
  lemma ApplyWrites(store: Store, delivery: Delivery)
    requires Appliable(delivery.pub)
    requires AppliedRevision(delivery.pub.snapshot.source) in store.config ==>
               Revision(store.config, delivery.pub.snapshot.source) < delivery.pub.snapshot.revision
    ensures var pub, after := delivery.pub, Receive(store, delivery);
            && after.config == store.config + Written(pub, delivery.now)
            && after.pages == (if CarriesContent(pub.action) then pub.snapshot.pages else store.pages)
            && after.fonts == (if CarriesContent(pub.action) then pub.snapshot.fonts else store.fonts)
  {
    var pub, now := delivery.pub, delivery.now;
    var base := map[AppliedRevision(pub.snapshot.source) := Number(pub.snapshot.revision)];
    var content := if CarriesContent(pub.action) then ContentWrites(pub.snapshot) else map[];
    var display := DisplayWrites(pub.action, pub.mode, now);
    var config := store.config[AppliedRevision(pub.snapshot.source) := Number(pub.snapshot.revision)];
    WithSharedWrites(config, pub.snapshot);
    WithActionWrites(config + content, pub.action, pub.mode, now);
    hide Insertable, WithShared, WithAction, ContentWrites, DisplayWrites;
    assert config == store.config + base;
    assert config + map[] == config;
    MergesAssociate(store.config, base, content);
    MergesAssociate(store.config, base + content, display);
  }

  function Find(config: map<Key, Value>, key: Key): Option<Value> {
    if key in config then Some(config[key]) else None
  }

  /** Two publications of one source in either order: exactly those fields depend on it that the earlier revision writes
      to a new value and the later one does not write. In the wrong order the earlier one has no effect at all. */
  lemma OrderMattersForTheRest(store: Store, early: Delivery, late: Delivery)
    requires Appliable(early.pub) && Appliable(late.pub) && early.pub.snapshot.source == late.pub.snapshot.source
    requires early.pub.snapshot.revision < late.pub.snapshot.revision
    requires AppliedRevision(early.pub.snapshot.source) in store.config ==>
               Revision(store.config, early.pub.snapshot.source) < early.pub.snapshot.revision
    ensures var p, q := Written(early.pub, early.now), Written(late.pub, late.now);
            var inOrder, swapped := Receive(Receive(store, early), late), Receive(Receive(store, late), early);
            && swapped == Receive(store, late)
            && (forall key :: Find(inOrder.config, key) != Find(swapped.config, key) <==>
                  key in p && key !in q && Find(store.config, key) != Some(p[key]))
            && (inOrder.pages != swapped.pages <==>
                  CarriesContent(early.pub.action) && !CarriesContent(late.pub.action)
                      && early.pub.snapshot.pages != store.pages)
            && (inOrder.fonts != swapped.fonts <==>
                  CarriesContent(early.pub.action) && !CarriesContent(late.pub.action)
                      && early.pub.snapshot.fonts != store.fonts)
  {
    StaleIsIgnored(store, early, late);
    hide Appliable;
    ApplyWrites(store, early);
    ApplyWrites(store, late);
    RevisionAfter(store, early);
    hide Revision;
    ApplyWrites(Receive(store, early), late);
    hide Receive, Written;
    OverwrittenOrNot(store.config, Written(early.pub, early.now), Written(late.pub, late.now));
  }

  lemma OverwrittenOrNot(config: map<Key, Value>, p: map<Key, Value>, q: map<Key, Value>)
    ensures forall key :: Find(config + p + q, key) != Find(config + q, key) <==>
              key in p && key !in q && Find(config, key) != Some(p[key])
  {
  }

  lemma StaleIsIgnored(store: Store, early: Delivery, late: Delivery)
    requires Appliable(late.pub) && early.pub.snapshot.source == late.pub.snapshot.source
    requires early.pub.snapshot.revision < late.pub.snapshot.revision
    requires AppliedRevision(early.pub.snapshot.source) in store.config ==>
               Revision(store.config, early.pub.snapshot.source) < early.pub.snapshot.revision
    ensures Receive(Receive(store, late), early) == Receive(store, late)
  {
    RevisionAfter(store, late);
    hide Appliable;
    var next := Receive(store, late);
    hide Receive;
    assert Apply(next, early.pub.snapshot, early.pub.action, early.pub.mode, early.now) == Stale;
    IgnoredIfStale(next, early);
  }

  lemma IgnoredIfStale(store: Store, delivery: Delivery)
    requires Apply(store, delivery.pub.snapshot, delivery.pub.action, delivery.pub.mode, delivery.now) == Stale
    ensures Receive(store, delivery) == store
  {
    hide Apply;
  }

  lemma RevisionAfter(store: Store, delivery: Delivery)
    requires Appliable(delivery.pub)
    requires AppliedRevision(delivery.pub.snapshot.source) in store.config ==>
               Revision(store.config, delivery.pub.snapshot.source) < delivery.pub.snapshot.revision
    ensures AppliedRevision(delivery.pub.snapshot.source) in Receive(store, delivery).config
    ensures Revision(Receive(store, delivery).config, delivery.pub.snapshot.source) == delivery.pub.snapshot.revision
  {
    ApplyWrites(store, delivery);
    hide Receive, Appliable;
    var key := AppliedRevision(delivery.pub.snapshot.source);
    assert key in Written(delivery.pub, delivery.now)
           && Written(delivery.pub, delivery.now)[key] == Number(delivery.pub.snapshot.revision);
  }

  /** What the room's surroundings answer while one publication is being applied. */
  datatype Surroundings = Surroundings(sourceIsUuid: bool, readable: bool, baseUrlOk: bool, folderOk: bool,
                                       pullOk: bool, sameDeployment: bool, commandStatus: int, now: int)
  datatype Reply = Reply(store: Store, status: int, commanded: bool)

  /** The room's handling of a publication up to the status it answers with. */
  ghost function Respond(store: Store, received: Option<Publication>, env: Surroundings): Reply {
    if received.None? then Reply(store, 400, false) else
    var pub := received.value;
    if !env.sourceIsUuid || pub.snapshot.revision <= 0 || !ValidMode(pub.mode) || pub.action == Unrecognised then
      Reply(store, 400, false)
    else if !env.readable then Reply(store, 500, false)
    else if Revision(store.config, pub.snapshot.source) >= pub.snapshot.revision then Reply(store, 200, false)
    else if !Accepted(pub) then Reply(store, 400, false)
    else if pub.action == Start && !env.baseUrlOk then Reply(store, 400, false)
    else if !env.folderOk && pub.assets != [] then Reply(store, 500, false)
    else if !env.pullOk && pub.assets != [] then Reply(store, 503, false)
    else if !env.sameDeployment then Reply(store, 409, false)
    else match Apply(store, pub.snapshot, pub.action, pub.mode, env.now)
      case Rejected => Reply(store, 500, false)
      case Stale => Reply(store, 200, false)
      case Applied(s) =>
        if pub.action != Start && pub.action != Stop then Reply(s, 200, false)
        else Reply(s, if env.commandStatus >= 400 then 409 else 200, true)
  }

  predicate WellFormed(pub: Publication, env: Surroundings) {
    env.sourceIsUuid && pub.snapshot.revision > 0 && ValidMode(pub.mode) && pub.action != Unrecognised
  }

  predicate Newer(store: Store, pub: Publication) {
    pub.snapshot.revision > Revision(store.config, pub.snapshot.source)
  }

  /** Everything that is checked before anything is fetched. */
  ghost predicate Passes(store: Store, pub: Publication, env: Surroundings) {
    && WellFormed(pub, env) && env.readable && Newer(store, pub) && Accepted(pub)
    && (pub.action == Start ==> env.baseUrlOk)
  }

  predicate HasAssets(pub: Publication, env: Surroundings) {
    pub.assets == [] || (env.folderOk && env.pullOk)
  }

  /** Nothing is wrong with the publication or the room; only its files could not be had this time. */
  ghost predicate PullFails(store: Store, pub: Publication, env: Surroundings) {
    Passes(store, pub, env) && pub.assets != [] && env.folderOk && !env.pullOk
  }

  /** All goes well. */
  ghost predicate Succeeds(store: Store, pub: Publication, env: Surroundings) {
    && Passes(store, pub, env) && HasAssets(pub, env) && env.sameDeployment && Appliable(pub)
    && (pub.action == Start || pub.action == Stop ==> env.commandStatus < 400)
  }

  /** Which status a publication is answered, by what it meets. */
  ghost predicate Statuses(store: Store, pub: Publication, env: Surroundings, status: int, commanded: bool) {
    && (status == 503 <==> PullFails(store, pub, env))
    && (status == 200 <==>
          WellFormed(pub, env) && env.readable && (!Newer(store, pub) || Succeeds(store, pub, env)))
    && (status == 400 <==> !WellFormed(pub, env) || (env.readable && Newer(store, pub) && !Passes(store, pub, env)))
    && (commanded <==>
          && Passes(store, pub, env) && HasAssets(pub, env) && env.sameDeployment && Appliable(pub)
          && (pub.action == Start || pub.action == Stop))
    && (status == 409 <==>
          && Passes(store, pub, env) && HasAssets(pub, env)
          && (!env.sameDeployment || (commanded && env.commandStatus >= 400)))
    && status in {200, 400, 409, 500, 503}
  }

  /** Every status exactly: 503 if all that is missing are the files, 200 if the revision or a later one is held already
      or all goes well, 400 for what fails a check, 409 if the deployment changed meanwhile or the device command that
      goes with it failed, and 500 for the room's own failures. */
  lemma StatusesAre(store: Store, received: Option<Publication>, env: Surroundings)
    ensures var reply := Respond(store, received, env);
            if received.Some? then Statuses(store, received.value, env, reply.status, reply.commanded)
            else reply == Reply(store, 400, false)
    ensures received.Some? && Succeeds(store, received.value, env) ==>
              Shows(Respond(store, received, env).store, received.value, env.now)
  {
    hide Accepted, Insertable;
    if received.Some? {
      var pub := received.value;
      AcknowledgedIsHeld(store, Arrival(pub, env));
      hide Shows;
    }
  }

  /** Only 200 and 409 can follow a change of the tables, so a retryable 503 never does; device commands go out only
      with an applied publication. */
  lemma StatusTellsWhetherTablesChanged(store: Store, received: Option<Publication>, env: Surroundings)
    ensures var reply := Respond(store, received, env);
            && (reply.store != store ==> reply.status == 200 || reply.status == 409)
            && (reply.status == 503 ==> reply.store == store && !reply.commanded)
            && (reply.commanded ==>
                received.Some? && Revision(reply.store.config, received.value.snapshot.source)
                    == received.value.snapshot.revision
                                    && Revision(store.config,
                                                received.value.snapshot.source) < received.value.snapshot.revision)
            && reply.status in {200, 400, 409, 500, 503}
  {
    hide Accepted, Insertable;
    if received.Some? {
      AppliedRevisionsIncrease(store, Delivery(received.value, env.now));
    }
  }

  // ----- Latest wins -----

  /** A publication arriving at the room, any number of times, with whatever its surroundings answer that time. */
  datatype Arrival = Arrival(pub: Publication, env: Surroundings)

  ghost function Handle(store: Store, arrival: Arrival): Reply {
    Respond(store, Some(arrival.pub), arrival.env)
  }

  ghost function After(store: Store, arrivals: seq<Arrival>): Store {
    if arrivals == [] then store else Handle(After(store, arrivals[..|arrivals| - 1]), arrivals[|arrivals| - 1]).store
  }

  /** What the n-th arrival is answered. */
  ghost function ReplyTo(store: Store, arrivals: seq<Arrival>, n: nat): Reply
    requires n < |arrivals|
  {
    Handle(After(store, arrivals[..n]), arrivals[n])
  }

  /** Applied, now or before: 200, or 409 because the device command that went with it failed. */
  predicate Acknowledged(reply: Reply) {
    reply.status == 200 || reply.commanded
  }

  /** An acknowledged publication is held afterwards, and shown if it is news; any other answer leaves the tables
      alone. */
  lemma AcknowledgedIsHeld(store: Store, arrival: Arrival)
    ensures var reply, snapshot := Handle(store, arrival), arrival.pub.snapshot;
            && (Acknowledged(reply) && Revision(store.config, snapshot.source) < snapshot.revision ==>
                  Shows(reply.store, arrival.pub, arrival.env.now))
            && (!Acknowledged(reply) || Revision(store.config, snapshot.source) >= snapshot.revision ==>
                reply.store == store)
            && (forall source :: source != snapshot.source ==>
                Revision(reply.store.config, source) == Revision(store.config, source))
  {
    hide Accepted, Insertable;
    AppliedRevisionsIncrease(store, Delivery(arrival.pub, arrival.env.now));
    hide Shows;
  }

  /** All arrivals are publications one server made. */
  ghost predicate FromPublisher(arrivals: seq<Arrival>, made: seq<Option<Publication>>) {
    forall i :: 0 <= i < |arrivals| ==> Some(arrivals[i].pub) in made
  }

  ghost predicate OneSource(arrivals: seq<Arrival>, source: string) {
    forall i :: 0 <= i < |arrivals| ==> arrivals[i].pub.snapshot.source == source
  }

  ghost predicate OneEach(arrivals: seq<Arrival>) {
    forall i, j ::
        0 <= i < |arrivals| && 0 <= j < |arrivals|
            && arrivals[i].pub.snapshot.revision == arrivals[j].pub.snapshot.revision ==>
      arrivals[i].pub == arrivals[j].pub
  }

  /** Arrivals from one publisher have one source, and a revision stands for one publication. */
  lemma PublisherNumbersEach(tables: seq<Store>, made: seq<Option<Publication>>, source: string, arrivals: seq<Arrival>)
    requires Publishing(tables, made, source) && FromPublisher(arrivals, made)
    ensures OneSource(arrivals, source) && OneEach(arrivals)
  {
    forall i | 0 <= i < |arrivals| ensures arrivals[i].pub.snapshot.source == source {
      var m :| 0 <= m < |made| && made[m] == Some(arrivals[i].pub);
      PublishedTakesNext(tables, made, source, m);
    }
    forall i, j | 0 <= i < |arrivals| && 0 <= j < |arrivals|
        && arrivals[i].pub.snapshot.revision == arrivals[j].pub.snapshot.revision
      ensures arrivals[i].pub == arrivals[j].pub
    {
      var m :| 0 <= m < |made| && made[m] == Some(arrivals[i].pub);
      var n :| 0 <= n < |made| && made[n] == Some(arrivals[j].pub);
      if m < n {
        RevisionsIncrease(tables, made, source, m, n);
      } else if n < m {
        RevisionsIncrease(tables, made, source, n, m);
      }
    }
  }

  /** No acknowledged arrival among the first n has a revision above this one. */
  ghost predicate NoneAbove(store: Store, arrivals: seq<Arrival>, revision: int, n: nat)
    requires n <= |arrivals|
  {
    forall k :: 0 <= k < n && Acknowledged(ReplyTo(store, arrivals, k)) ==>
        arrivals[k].pub.snapshot.revision <= revision
  }

  lemma OneMoreArrival(store: Store, arrivals: seq<Arrival>, n: nat)
    requires n < |arrivals|
    ensures After(store, arrivals[..n + 1]) == ReplyTo(store, arrivals, n).store
  {
    assert arrivals[..n + 1][..n] == arrivals[..n] && arrivals[..n + 1][n] == arrivals[n];
  }

  /** Some of the first n arrivals was acknowledged and has a revision of at least r. */
  ghost predicate AcknowledgedFrom(store: Store, arrivals: seq<Arrival>, r: int, n: nat)
    requires n <= |arrivals|
  {
    exists k :: 0 <= k < n && Acknowledged(ReplyTo(store, arrivals, k)) && arrivals[k].pub.snapshot.revision >= r
  }

  lemma OneMoreAcknowledged(store: Store, arrivals: seq<Arrival>, r: int, n: nat)
    requires n < |arrivals|
    ensures AcknowledgedFrom(store, arrivals, r, n + 1) <==>
              AcknowledgedFrom(store, arrivals, r, n)
                  || (Acknowledged(ReplyTo(store, arrivals, n)) && arrivals[n].pub.snapshot.revision >= r)
  {
    hide Acknowledged, ReplyTo;
  }

  /** The room holds a revision of at least r exactly if it did before, or acknowledged one. */
  lemma {:induction false} HeldExactlyIfAcknowledged(store: Store, arrivals: seq<Arrival>, source: string, r: int,
                                                     n: nat)
    requires OneSource(arrivals, source) && n <= |arrivals|
    ensures Revision(After(store, arrivals[..n]).config, source) >= r <==>
              Revision(store.config, source) >= r || AcknowledgedFrom(store, arrivals, r, n)
  {
    hide Revision, Acknowledged, ReplyTo, OneSource;
    if n > 0 {
      hide AcknowledgedFrom, After;
      HeldExactlyIfAcknowledged(store, arrivals, source, r, n - 1);
      OneMoreHeld(store, arrivals, source, n - 1);
      OneMoreAcknowledged(store, arrivals, r, n - 1);
    }
  }

  lemma OneMoreHeld(store: Store, arrivals: seq<Arrival>, source: string, n: nat)
    requires OneSource(arrivals, source) && n < |arrivals|
    ensures var before, after := Revision(After(store, arrivals[..n]).config, source),
            Revision(After(store, arrivals[..n + 1]).config, source);
            && before <= after
            && (Acknowledged(ReplyTo(store, arrivals, n)) ==> arrivals[n].pub.snapshot.revision <= after)
            && (after == before || (Acknowledged(ReplyTo(store, arrivals, n))
                                    && after == arrivals[n].pub.snapshot.revision))
  {
    OneMoreArrival(store, arrivals, n);
    HeldNeverFalls(After(store, arrivals[..n]), arrivals[n]);
    hide After, Revision, Acknowledged, Handle;
  }

  lemma HeldNeverFalls(store: Store, arrival: Arrival)
    ensures var reply, snapshot := Handle(store, arrival), arrival.pub.snapshot;
            && Revision(store.config, snapshot.source) <= Revision(reply.store.config, snapshot.source)
            && (Acknowledged(reply) ==> snapshot.revision <= Revision(reply.store.config, snapshot.source))
            && (Revision(reply.store.config, snapshot.source) == Revision(store.config, snapshot.source)
                || (Acknowledged(reply) && Revision(reply.store.config, snapshot.source) == snapshot.revision))
  {
    AcknowledgedIsHeld(store, arrival);
    hide Handle;
  }

  /** Once the highest acknowledged revision is shown, nothing that arrives changes the tables. */
  lemma {:induction false} NothingAfterHighest(store: Store, arrivals: seq<Arrival>, source: string, revision: int,
                                               m: nat, n: nat)
    requires OneSource(arrivals, source) && m <= n <= |arrivals| && NoneAbove(store, arrivals, revision, n)
    requires Revision(After(store, arrivals[..m]).config, source) == revision
    ensures After(store, arrivals[..n]) == After(store, arrivals[..m])
  {
    if m < n {
      NothingAfterHighest(store, arrivals, source, revision, m, n - 1);
      OneMoreArrival(store, arrivals, n - 1);
      AcknowledgedIsHeld(After(store, arrivals[..n - 1]), arrivals[n - 1]);
    }
  }

  /** Latest wins: over any order, repetition and failure of arrivals from one publisher, every field that the highest
      acknowledged publication writes ends with its value. `at` is the first arrival of it that is acknowledged. */
  lemma LatestWins(store: Store, arrivals: seq<Arrival>, source: string, top: Publication, at: nat)
    requires OneSource(arrivals, source) && OneEach(arrivals) && Revision(store.config, source) < top.snapshot.revision
    requires at < |arrivals| && arrivals[at].pub == top && Acknowledged(ReplyTo(store, arrivals, at))
    requires forall k :: 0 <= k < at && arrivals[k].pub == top ==> !Acknowledged(ReplyTo(store, arrivals, k))
    requires NoneAbove(store, arrivals, top.snapshot.revision, |arrivals|)
    ensures Shows(After(store, arrivals), top, arrivals[at].env.now)
  {
    var before := After(store, arrivals[..at]);
    HeldExactlyIfAcknowledged(store, arrivals, source, top.snapshot.revision, at);
    hide Shows, Handle, Acknowledged;
    AcknowledgedIsHeld(before, arrivals[at]);
    OneMoreArrival(store, arrivals, at);
    ShownIsHeld(ReplyTo(store, arrivals, at).store, top, arrivals[at].env.now);
    NothingAfterHighest(store, arrivals, source, top.snapshot.revision, at + 1, |arrivals|);
    assert arrivals[..|arrivals|] == arrivals;
  }

  lemma ShownIsHeld(store: Store, pub: Publication, now: int)
    requires Shows(store, pub, now)
    ensures Revision(store.config, pub.snapshot.source) == pub.snapshot.revision
  {
  }

  /** Two rooms given the same server's publications in any two orders, with any failures, agree on everything the
      highest one both acknowledged writes, start times aside. */
  lemma OrderDoesNotMatterForTheHighest(first: Store, second: Store, one: seq<Arrival>, other: seq<Arrival>,
                                        source: string, top: Publication, i: nat, j: nat)
    requires OneSource(one, source) && OneEach(one) && Revision(first.config, source) < top.snapshot.revision
    requires OneSource(other, source) && OneEach(other) && Revision(second.config, source) < top.snapshot.revision
    requires i < |one| && one[i].pub == top && Acknowledged(ReplyTo(first, one, i))
             && NoneAbove(first, one, top.snapshot.revision, |one|)
    requires j < |other| && other[j].pub == top && Acknowledged(ReplyTo(second, other, j))
             && NoneAbove(second, other, top.snapshot.revision, |other|)
    ensures var a, b := After(first, one), After(second, other);
            && (CarriesContent(top.action) ==>
                  && a.pages == b.pages && a.fonts == b.fonts
                  && forall name | name in ["active_font", "countdown_target", "reference_width"] ::
                       Get(a.config, Shared(name), Number(0)) == Get(b.config, Shared(name), Number(0)))
            && (top.action == Start || top.action == Stop ==>
                Get(a.config, PushedState, Number(0)) == Get(b.config, PushedState, Number(0)))
  {
    hide Acknowledged, After, ReplyTo, NoneAbove, Revision;
    var k := FirstAcknowledged(first, one, top, i);
    var l := FirstAcknowledged(second, other, top, j);
    LatestWins(first, one, source, top, k);
    LatestWins(second, other, source, top, l);
  }

  /** The first acknowledged arrival of a publication, up to one that is known. */
  lemma {:induction false} FirstAcknowledged(store: Store, arrivals: seq<Arrival>, pub: Publication, n: nat)
    returns (k: nat)
    requires n < |arrivals| && arrivals[n].pub == pub && Acknowledged(ReplyTo(store, arrivals, n))
    ensures k <= n && arrivals[k].pub == pub && Acknowledged(ReplyTo(store, arrivals, k))
    ensures forall i :: 0 <= i < k && arrivals[i].pub == pub ==> !Acknowledged(ReplyTo(store, arrivals, i))
  {
    hide Acknowledged, ReplyTo;
    k := n;
    if i :| 0 <= i < n && arrivals[i].pub == pub && Acknowledged(ReplyTo(store, arrivals, i)) {
      k := FirstAcknowledged(store, arrivals, pub, i);
    }
  }
}
