/** Identity allocation: which numeric id a registering machine gets, over changing rows and settings. */
module Identity {
  import opened Common
  import opened Assets

  type Id = int

  datatype Row = Row(mac: string, key: string)

  /** A reported MAC address: none, one that is refused, or a unicast address in normal form. */
  datatype Mac = Absent | Refused | Normal(text: string)

  datatype State = State(rows: map<Id, Row>, start: int)
  datatype Outcome = Rejected | Known(id: Id) | Claimed(id: Id) | New(id: Id)

  datatype Op = Register(mac: Mac, key: string) | Delete(id: Id) | SetStart(start: int)
      | UpdateMac(id: Id, text: string)

  const MAX_KEY: nat := 128

  function MacText(mac: Mac): string {
    if mac.Normal? then mac.text else ""
  }

  /** White space as Unicode defines it. */
  predicate IsSpace(c: char) {
    '\t' <= c <= '\r' || c == ' ' || c == '\U{85}' || c == '\U{A0}' || c == '\U{1680}'
    || '\U{2000}' <= c <= '\U{200A}' || c in {'\U{2028}', '\U{2029}', '\U{202F}', '\U{205F}', '\U{3000}'}
  }

  predicate Bare(s: string) {
    s != "" ==> !IsSpace(s[0]) && !IsSpace(s[|s| - 1])
  }

  function Trimmed(s: string): (t: string)
    ensures Bare(t)
  {
    if s == "" then "" else if IsSpace(s[0]) then Trimmed(s[1..])
    else if IsSpace(s[|s| - 1]) then Trimmed(s[..|s| - 1])
    else s
  }

  lemma {:induction false} TrimsLast(s: string, c: char)
    requires IsSpace(c)
    ensures Trimmed(s + [c]) == Trimmed(s)
  {
    if s == "" {
      assert (s + [c])[1..] == s;
    } else if IsSpace(s[0]) {
      TrimsLast(s[1..], c);
      assert (s + [c])[1..] == s[1..] + [c];
    } else {
      assert (s + [c])[..|s|] == s;
    }
  }

  lemma {:induction false} TrimsAfter(s: string, after: string)
    requires forall c :: c in after ==> IsSpace(c)
    ensures Trimmed(s + after) == Trimmed(s)
    decreases after
  {
    if after == "" {
      assert s + after == s;
    } else {
      TrimsAfter(s + [after[0]], after[1..]);
      assert s + [after[0]] + after[1..] == s + after;
      TrimsLast(s, after[0]);
    }
  }

  /** White space around a text does not matter. */
  lemma {:induction false} TrimmedIsTheCore(before: string, core: string, after: string)
    requires (forall c :: c in before ==> IsSpace(c)) && Bare(core) && forall c :: c in after ==> IsSpace(c)
    ensures Trimmed(before + core + after) == core
  {
    if before == "" {
      assert before + core == core;
      TrimsAfter(core, after);
    } else {
      TrimmedIsTheCore(before[1..], core, after);
      assert (before + core + after)[1..] == before[1..] + core + after;
    }
  }

  function Utf8Width(c: char): nat {
    if c < '\U{80}' then 1 else if c < '\U{800}' then 2 else if c < '\U{10000}' then 3 else 4
  }

  function Utf8Length(s: string): nat {
    if s == "" then 0 else Utf8Width(s[0]) + Utf8Length(s[1..])
  }

  /** The identity a machine registers under: what it sends, less the white space around it, or else its MAC address. */
  function KeyOf(mac: Mac, key: string): string {
    if Trimmed(key) == "" then "mac:" + MacText(mac) else Trimmed(key)
  }

  predicate Acceptable(mac: Mac, key: string) {
    !mac.Refused? && Utf8Length(Trimmed(key)) <= MAX_KEY && (Trimmed(key) == "" ==> MacText(mac) != "")
  }

  /** The same key sent with other white space around it registers the same machine. */
  lemma SpaceAroundKeysIsIgnored(mac: Mac, before: string, key: string, after: string)
    requires (forall c :: c in before ==> IsSpace(c)) && Bare(key) && forall c :: c in after ==> IsSpace(c)
    ensures KeyOf(mac, before + key + after) == KeyOf(mac, key)
            && (Acceptable(mac, before + key + after) <==> Acceptable(mac, key))
  {
    TrimmedIsTheCore(before, key, after);
    TrimmedIsTheCore("", key, "");
    assert "" + key + "" == key;
  }

  ghost predicate Holder(rows: map<Id, Row>, key: string, id: Id) {
    id in rows && rows[id].key == key
  }

  /** Rows from before identities existed that carry this MAC address. */
  function Legacy(rows: map<Id, Row>, mac: string): set<Id> {
    set id | id in rows && Lower(rows[id].mac) == mac && rows[id].key == ""
  }

  /** What a registration must come to, in terms of the table before and after it. */
  ghost predicate Registers(s: State, t: State, mac: Mac, key: string, outcome: Outcome) {
    var k, m := KeyOf(mac, key), MacText(mac);
    && t.start == s.start
    && match outcome
       case Rejected => !Acceptable(mac, key) && t == s
       case Known(id) => Acceptable(mac, key) && Holder(s.rows, k, id) && t == s
       case Claimed(id) =>
         Acceptable(mac, key) && (forall i :: !Holder(s.rows, k, i)) && m != "" && Legacy(s.rows, m) == {id}
             && t.rows == s.rows[id := s.rows[id].(key := k)]
       case New(id) =>
         && Acceptable(mac, key) && (forall i :: !Holder(s.rows, k, i)) && (m == "" || |Legacy(s.rows, m)| != 1)
         && id >= s.start && (forall i :: i in s.rows ==> i < id) && t.rows == s.rows[id := Row(m, k)]
         && (id == s.start || id - 1 in s.rows || (s.rows == map[] && id == 1)) && (s.rows == map[] ==> id >= 1)
  }

  ghost predicate Steps(s: State, t: State, op: Op, outcome: Outcome) {
    match op
    case Register(mac, key) => Registers(s, t, mac, key, outcome)
    case Delete(id) => t == s.(rows := s.rows - {id})
    case SetStart(start) => t == s.(start := start)
    case UpdateMac(id, text) => t == if id in s.rows then s.(rows := s.rows[id := s.rows[id].(mac := text)]) else s
  }

  /** The unique index over non-empty keys. */
  ghost predicate KeysDistinct(rows: map<Id, Row>) {
    forall i, j :: i in rows && j in rows && rows[i].key == rows[j].key != "" ==> i == j
  }

  lemma KeyIsNotEmpty(mac: Mac, key: string)
    ensures KeyOf(mac, key) != ""
  {
  }

  lemma StepKeepsKeysDistinct(s: State, t: State, op: Op, outcome: Outcome)
    requires KeysDistinct(s.rows) && Steps(s, t, op, outcome)
    ensures KeysDistinct(t.rows)
  {
    if op.Register? {
      KeyIsNotEmpty(op.mac, op.key);
      assert forall i :: i in s.rows && s.rows[i].key == KeyOf(op.mac, op.key) ==>
               Holder(s.rows, KeyOf(op.mac, op.key), i);
    }
  }

  function IdOf(outcome: Outcome): Id
    requires !outcome.Rejected?
  {
    match outcome
    case Known(id) => id
    case Claimed(id) => id
    case New(id) => id
  }

  /** After a registration its key holds exactly the id that was answered; other rows keep theirs. */
  lemma RegistrationBindsKey(s: State, t: State, mac: Mac, key: string, outcome: Outcome)
    requires KeysDistinct(s.rows) && Registers(s, t, mac, key, outcome) && !outcome.Rejected?
    ensures forall i :: Holder(t.rows, KeyOf(mac, key), i) <==> i == IdOf(outcome)
    ensures forall i :: i in s.rows && s.rows[i].key != "" ==> i in t.rows && t.rows[i] == s.rows[i]
  {
    KeyIsNotEmpty(mac, key);
    assert outcome.Claimed? ==> IdOf(outcome) in Legacy(s.rows, MacText(mac));
    forall i ensures Holder(t.rows, KeyOf(mac, key), i) <==> i == IdOf(outcome) {
      assert Holder(s.rows, KeyOf(mac, key), i) ==> outcome.Known?;
    }
  }

  // ----- Over any history -----

  ghost predicate History(states: seq<State>, ops: seq<Op>, outcomes: seq<Outcome>) {
    && |states| == |ops| + 1 && |outcomes| == |ops| && KeysDistinct(states[0].rows)
    && forall n :: 0 <= n < |ops| ==> Steps(states[n], states[n + 1], ops[n], outcomes[n])
  }

  ghost predicate NotDeleted(ops: seq<Op>, id: Id, from: nat, to: nat) {
    forall n :: from <= n < to && n < |ops| ==> ops[n] != Delete(id)
  }

  lemma {:induction false} HistoryKeepsKeysDistinct(states: seq<State>, ops: seq<Op>, outcomes: seq<Outcome>, n: nat)
    requires History(states, ops, outcomes) && n < |states|
    ensures KeysDistinct(states[n].rows)
  {
    if n > 0 {
      HistoryKeepsKeysDistinct(states, ops, outcomes, n - 1);
      StepKeepsKeysDistinct(states[n - 1], states[n], ops[n - 1], outcomes[n - 1]);
    }
  }

  /** A key keeps its id for as long as its row lives, whatever machines register, are deleted or change address
      meanwhile. */
  lemma {:induction false} KeyKeepsId(states: seq<State>, ops: seq<Op>, outcomes: seq<Outcome>, from: nat, to: nat,
                                      key: string, id: Id)
    requires History(states, ops, outcomes) && from <= to < |states| && key != ""
    requires Holder(states[from].rows, key, id) && NotDeleted(ops, id, from, to)
    ensures forall i :: Holder(states[to].rows, key, i) <==> i == id
  {
    HistoryKeepsKeysDistinct(states, ops, outcomes, to);
    if from < to {
      HistoryKeepsKeysDistinct(states, ops, outcomes, to - 1);
      KeyKeepsId(states, ops, outcomes, from, to - 1, key, id);
      assert Holder(states[to - 1].rows, key, id);
      var s, t, op := states[to - 1], states[to], ops[to - 1];
      assert Steps(s, t, op, outcomes[to - 1]) && op != Delete(id);
      if op.Register? && !outcomes[to - 1].Rejected? {
        RegistrationBindsKey(s, t, op.mac, op.key, outcomes[to - 1]);
      }
      assert Holder(t.rows, key, id);
    }
  }

  /** The same machine asking again gets the same id; and two different keys never get one id, even with equal MAC
      addresses, unless its row was deleted in between. */
  lemma AnswersAgree(states: seq<State>, ops: seq<Op>, outcomes: seq<Outcome>, m: nat, n: nat)
    requires History(states, ops, outcomes) && m < n < |ops|
    requires ops[m].Register? && ops[n].Register? && !outcomes[m].Rejected? && !outcomes[n].Rejected?
    requires NotDeleted(ops, IdOf(outcomes[m]), m + 1, n)
    ensures KeyOf(ops[m].mac, ops[m].key) == KeyOf(ops[n].mac, ops[n].key) <==> IdOf(outcomes[m]) == IdOf(outcomes[n])
  {
    var k, id := KeyOf(ops[m].mac, ops[m].key), IdOf(outcomes[m]);
    KeyIsNotEmpty(ops[m].mac, ops[m].key);
    HistoryKeepsKeysDistinct(states, ops, outcomes, m);
    assert Steps(states[m], states[m + 1], ops[m], outcomes[m]);
    RegistrationBindsKey(states[m], states[m + 1], ops[m].mac, ops[m].key, outcomes[m]);
    KeyKeepsId(states, ops, outcomes, m + 1, n, k, id);
    assert Holder(states[n].rows, k, id);
    assert Steps(states[n], states[n + 1], ops[n], outcomes[n]);
    HistoryKeepsKeysDistinct(states, ops, outcomes, n);
    RegistrationBindsKey(states[n], states[n + 1], ops[n].mac, ops[n].key, outcomes[n]);
    assert states[n + 1].rows[id] == states[n].rows[id];
    assert Holder(states[n + 1].rows, k, id);
  }

  /** A legacy row is claimed at most once in its life. */
  lemma LegacyClaimedOnce(states: seq<State>, ops: seq<Op>, outcomes: seq<Outcome>, m: nat, n: nat, id: Id)
    requires History(states, ops, outcomes) && m < n < |ops| && ops[m].Register? && ops[n].Register?
    requires outcomes[m] == Claimed(id) && NotDeleted(ops, id, m + 1, n)
    ensures outcomes[n] != Claimed(id)
  {
    var k := KeyOf(ops[m].mac, ops[m].key);
    KeyIsNotEmpty(ops[m].mac, ops[m].key);
    assert Steps(states[m], states[m + 1], ops[m], outcomes[m]);
    HistoryKeepsKeysDistinct(states, ops, outcomes, m);
    RegistrationBindsKey(states[m], states[m + 1], ops[m].mac, ops[m].key, outcomes[m]);
    assert Holder(states[m + 1].rows, k, id);
    KeyKeepsId(states, ops, outcomes, m + 1, n, k, id);
    assert Holder(states[n].rows, k, id);
    assert Steps(states[n], states[n + 1], ops[n], outcomes[n]);
    assert outcomes[n] == Claimed(id) ==> id in Legacy(states[n].rows, MacText(ops[n].mac));
  }

  /** Above every live id, not below the configured start, and positive if there is no row. */
  ghost predicate Free(s: State, id: Id) {
    id >= s.start && (forall i :: i in s.rows ==> i < id) && (s.rows == map[] ==> id >= 1)
  }

  /** The maximum of the start and one above the highest live id. */
  ghost predicate LeastFree(s: State, id: Id) {
    Free(s, id) && forall j :: Free(s, j) ==> id <= j
  }

  lemma NewIdIsLeastFree(s: State, t: State, mac: Mac, key: string, id: Id)
    requires Registers(s, t, mac, key, New(id))
    ensures LeastFree(s, id)
  {
    assert Free(s, id);
  }

  /** Ids are unique among live rows only: a deleted number goes to the next new machine exactly if no live id and no
      start is above it and the one below it is live or it is itself the start (or it is 1 and the table is empty). */
  lemma DeletedIdIsReissued(s: State, t: State, u: State, mac: Mac, key: string, id: Id, n: Id)
    requires id in s.rows && Steps(s, t, Delete(id), Rejected) && Registers(t, u, mac, key, New(n))
    ensures n == id <==> LeastFree(t, id)
    ensures n == id <==>
              && s.start <= id && (forall i :: i in s.rows && i != id ==> i < id)
              && (id == s.start || id - 1 in s.rows || (s.rows.Keys == {id} && id == 1))
                 && (s.rows.Keys == {id} ==> id >= 1)
  {
    NewIdIsLeastFree(t, u, mac, key, n);
    assert t.rows.Keys == s.rows.Keys - {id};
    assert forall i :: i in t.rows <==> i in s.rows && i != id;
    assert t.rows == map[] <==> t.rows.Keys == {};
    assert t.rows.Keys == {} <==> s.rows.Keys == {id};
    if s.start <= id && (forall i :: i in s.rows && i != id ==> i < id) && (s.rows.Keys == {id} ==> id >= 1) {
      assert Free(t, id);
      assert id - 1 in s.rows ==> id - 1 in t.rows && id - 1 < n;
    }
    if n == id {
      assert Free(t, n);
    }
  }

  /** The only row without a key that carries this MAC address, in whatever case. */
  ghost predicate OnlyLegacy(rows: map<Id, Row>, mac: Mac, id: Id) {
    && mac.Normal? && mac.text != ""
    && forall i :: (i in rows && rows[i].key == "" && Lower(rows[i].mac) == mac.text) <==> i == id
  }

  lemma OnlyLegacyIs(rows: map<Id, Row>, mac: Mac, id: Id)
    requires OnlyLegacy(rows, mac, id)
    ensures Legacy(rows, MacText(mac)) == {id}
  {
    forall i ensures i in Legacy(rows, MacText(mac)) <==> i == id {
      assert i in rows ==> (rows[i].key == "" && Lower(rows[i].mac) == mac.text <==> i == id);
    }
  }

  class IDAssigner {
    var rows: map<Id, Row>
    var start: int

    function View(): State
      reads this
    {
      State(rows, start)
    }

    /** The stored id a client sends is not looked at. */
    method AssignIdentity(mac: Mac, key: string, storedID: Option<Id>) returns (outcome: Outcome)
      requires KeysDistinct(rows)
      modifies this`rows
      ensures Registers(old(View()), View(), mac, key, outcome)
      ensures forall id | OnlyLegacy(old(rows), mac, id) && Acceptable(mac, key) && forall i :: i in old(rows) ==>
                  old(rows)[i].key != KeyOf(mac, key) :: outcome == Claimed(id)
    {
      forall id | OnlyLegacy(rows, mac, id) {
        OnlyLegacyIs(rows, mac, id);
      }
      hide OnlyLegacy;
      var k := Trimmed(key);
      if mac.Refused? || Utf8Length(k) > MAX_KEY || (k == "" && MacText(mac) == "") {
        return Rejected;
      }
      if k == "" {
        k := "mac:" + MacText(mac);
      }
      var found := FindKey(k);
      if found.Some? {
        return Known(found.value);
      }
      if MacText(mac) != "" {
        var legacy := Legacy(rows, MacText(mac));
        if |legacy| == 1 {
          var id := Only(legacy);
          rows := rows[id := rows[id].(key := k)];
          return Claimed(id);
        }
      }
      var next := AllocateNew();
      rows := rows[next := Row(MacText(mac), k)];
      return New(next);
    }

    method FindKey(k: string) returns (found: Option<Id>)
      ensures found.None? ==> forall i :: !Holder(rows, k, i)
      ensures found.Some? ==> Holder(rows, k, found.value)
    {
      var todo := rows.Keys;
      while todo != {}
        invariant todo <= rows.Keys && forall i :: Holder(rows, k, i) ==> i in todo
        decreases |todo|
      {
        assert (forall c :: c !in todo) ==> todo == {};
        var i :| i in todo;
        if rows[i].key == k {
          return Some(i);
        }
        todo := todo - {i};
      }
      return None;
    }

    /** One above the highest live id, or 1, and not below the configured start. */
    method AllocateNew() returns (next: Id)
      ensures next >= start && forall i :: i in rows ==> i < next
      ensures (next == start || next - 1 in rows || (rows == map[] && next == 1)) && (rows == map[] ==> next >= 1)
    {
      var highest: Option<Id> := None;
      var todo := rows.Keys;
      while todo != {}
        invariant todo <= rows.Keys && (highest.Some? ==> highest.value in rows)
        invariant forall i :: i in rows && i !in todo ==> highest.Some? && i <= highest.value
        decreases |todo|
      {
        assert (forall c :: c !in todo) ==> todo == {};
        var i :| i in todo;
        todo := todo - {i};
        if highest.None? || i > highest.value {
          highest := Some(i);
        }
      }
      next := 1;
      if highest.Some? {
        next := highest.value + 1;
      }
      if start > next {
        next := start;
      }
    }
  }

  method Only(ids: set<Id>) returns (id: Id)
    requires |ids| == 1
    ensures ids == {id}
  {
    assert (forall c :: c !in ids) ==> ids == {};
    id :| id in ids;
    assert |ids - {id}| == 0;
    assert ids == {id} + (ids - {id});
  }
}
