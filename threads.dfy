/**
 * The message queries of server/storage.ts: the thread between two users
 * and the conversation summaries of `getConversations`, the latter
 * specified as the fold its `forEach` loop performs over a local `Map`
 * from partner to message.
 */
module Threads {
  import opened Schema
  import opened Seqs

  /** The other party of a message, seen from `u`. */
  function Partner(m: Message, u: Id): Id {
    if m.senderId == u then m.receiverId else m.senderId
  }

  predicate Involves(m: Message, u: Id) {
    m.senderId == u || m.receiverId == u
  }

  predicate Between(m: Message, a: Id, b: Id) {
    (m.senderId == a && m.receiverId == b) || (m.senderId == b && m.receiverId == a)
  }

  function CreatedAt(m: Message): int { m.createdAt }

  function NewestFirst(m: Message): int { -m.createdAt }

  /** The loop's local `Map<partner, Message>`: its entries and its key insertion order. */
  datatype Latest = Latest(byPartner: map<Id, Message>, order: seq<Id>)

  ghost predicate WellFormed(acc: Latest) {
    && (forall p :: p in acc.byPartner <==> p in acc.order)
    && Distinct(acc.order)
  }

  /** One iteration: keep `m` when its partner is new or when it is strictly newer. */
  function Step(acc: Latest, m: Message, u: Id): Latest {
    var p := Partner(m, u);
    if p !in acc.byPartner then Latest(acc.byPartner[p := m], acc.order + [p])
    else if m.createdAt > acc.byPartner[p].createdAt then Latest(acc.byPartner[p := m], acc.order)
    else acc
  }

  function LatestPerPartner(ms: seq<Message>, u: Id): Latest {
    if ms == [] then Latest(map[], [])
    else Step(LatestPerPartner(ms[..|ms| - 1], u), ms[|ms| - 1], u)
  }

  /** Folding one more message is one more step. */
  lemma LatestPerPartnerSnoc(ms: seq<Message>, i: nat, u: Id)
    requires i < |ms|
    ensures LatestPerPartner(ms[..i + 1], u) == Step(LatestPerPartner(ms[..i], u), ms[i], u)
  {
    assert ms[..i + 1][..i] == ms[..i];
  }

  /** `ms[i]` is the newest message with its partner in `ms`, and the first such one. */
  ghost predicate FirstLatestAt(ms: seq<Message>, u: Id, i: nat)
    requires i < |ms|
  {
    && (forall j :: 0 <= j < i && Partner(ms[j], u) == Partner(ms[i], u) ==> ms[j].createdAt < ms[i].createdAt)
    && (forall j :: 0 <= j < |ms| && Partner(ms[j], u) == Partner(ms[i], u) ==> ms[j].createdAt <= ms[i].createdAt)
  }

  /** `h` is the newest message with its partner in `ms`, and the first such one. */
  ghost predicate FirstLatest(ms: seq<Message>, u: Id, h: Message) {
    exists i :: 0 <= i < |ms| && ms[i] == h && FirstLatestAt(ms, u, i)
  }

  /** An entry stays the first newest when the next message is not newer for its partner. */
  lemma FirstLatestKept(ms: seq<Message>, u: Id, i: nat)
    requires i < |ms| - 1
    requires FirstLatestAt(ms[..|ms| - 1], u, i)
    requires Partner(ms[|ms| - 1], u) != Partner(ms[i], u) || ms[|ms| - 1].createdAt <= ms[i].createdAt
    ensures FirstLatestAt(ms, u, i)
  {
    var prefix := ms[..|ms| - 1];
    assert forall j :: 0 <= j < |prefix| ==> ms[j] == prefix[j];
  }

  /** The last message is the first newest when every earlier one with its partner is strictly older. */
  lemma FirstLatestLast(ms: seq<Message>, u: Id)
    requires |ms| > 0
    requires forall j :: 0 <= j < |ms| - 1 && Partner(ms[j], u) == Partner(ms[|ms| - 1], u) ==> ms[j].createdAt < ms[|ms| - 1].createdAt
    ensures FirstLatestAt(ms, u, |ms| - 1)
  {
  }

  /** The loop's map holds exactly the partners seen, each once in its key order. */
  lemma {:induction false} LatestPerPartnerKeys(ms: seq<Message>, u: Id)
    ensures WellFormed(LatestPerPartner(ms, u))
    ensures forall i :: 0 <= i < |LatestPerPartner(ms, u).order| ==>
      LatestPerPartner(ms, u).order[i] in LatestPerPartner(ms, u).byPartner
    ensures forall p :: p in LatestPerPartner(ms, u).byPartner <==> exists i :: 0 <= i < |ms| && Partner(ms[i], u) == p
  {
    if ms != [] {
      var n := |ms| - 1;
      var prefix := ms[..n];
      LatestPerPartnerKeys(prefix, u);
      var acc := LatestPerPartner(prefix, u);
      var p := Partner(ms[n], u);
      assert LatestPerPartner(ms, u) == Step(acc, ms[n], u);
      forall q ensures q in Step(acc, ms[n], u).byPartner <==> exists i :: 0 <= i < |ms| && Partner(ms[i], u) == q {
        if q != p && q in acc.byPartner {
          var i :| 0 <= i < |prefix| && Partner(prefix[i], u) == q;
          assert ms[i] == prefix[i];
        }
        if q != p && exists i :: 0 <= i < |ms| && Partner(ms[i], u) == q {
          var i :| 0 <= i < |ms| && Partner(ms[i], u) == q;
          assert prefix[i] == ms[i];
        }
      }
    }
  }

  /** Each entry of the loop's map is the first newest message with that partner. */
  lemma {:induction false} LatestPerPartnerValues(ms: seq<Message>, u: Id, q: Id)
    requires q in LatestPerPartner(ms, u).byPartner
    ensures Partner(LatestPerPartner(ms, u).byPartner[q], u) == q
    ensures FirstLatest(ms, u, LatestPerPartner(ms, u).byPartner[q])
  {
    var n := |ms| - 1;
    var prefix, m := ms[..n], ms[n];
    var acc := LatestPerPartner(prefix, u);
    assert LatestPerPartner(ms, u) == Step(acc, m, u);
    var h := Step(acc, m, u).byPartner[q];
    if q in acc.byPartner && h == acc.byPartner[q] && (q != Partner(m, u) || m.createdAt <= h.createdAt) {
      LatestPerPartnerValues(prefix, u, q);
      var i :| 0 <= i < |prefix| && prefix[i] == h && FirstLatestAt(prefix, u, i);
      FirstLatestKept(ms, u, i);
    } else {
      assert q == Partner(m, u) && h == m;
      forall j | 0 <= j < n && Partner(ms[j], u) == q ensures ms[j].createdAt < m.createdAt {
        assert prefix[j] == ms[j];
        LatestPerPartnerKeys(prefix, u);
        assert q in acc.byPartner;
        LatestPerPartnerValues(prefix, u, q);
        var i :| 0 <= i < |prefix| && prefix[i] == acc.byPartner[q] && FirstLatestAt(prefix, u, i);
      }
      FirstLatestLast(ms, u);
    }
  }

  /** `u` first exchanged a message with `p` before first exchanging one with `q`. */
  ghost predicate MetBefore(ms: seq<Message>, u: Id, p: Id, q: Id) {
    exists k :: 0 <= k < |ms| && Partner(ms[k], u) == p && forall k' :: 0 <= k' <= k ==> Partner(ms[k'], u) != q
  }

  /** Meeting `p` before `q` in a prefix stays so in the whole sequence. */
  lemma MetBeforeExtends(ms: seq<Message>, n: nat, u: Id, p: Id, q: Id)
    requires n <= |ms| && MetBefore(ms[..n], u, p, q)
    ensures MetBefore(ms, u, p, q)
  {
    var k :| 0 <= k < n && Partner(ms[..n][k], u) == p && forall k' :: 0 <= k' <= k ==> Partner(ms[..n][k'], u) != q;
    assert forall k' :: 0 <= k' <= k ==> ms[..n][k'] == ms[k'];
  }

  /** The map's keys are listed in the order in which `u` first met each partner. */
  lemma {:induction false} LatestPerPartnerOrder(ms: seq<Message>, u: Id)
    ensures forall i, j :: 0 <= i < j < |LatestPerPartner(ms, u).order| ==>
      MetBefore(ms, u, LatestPerPartner(ms, u).order[i], LatestPerPartner(ms, u).order[j])
  {
    if ms != [] {
      var n := |ms| - 1;
      var prefix := ms[..n];
      assert ms[..n] == prefix;
      LatestPerPartnerOrder(prefix, u);
      LatestPerPartnerKeys(prefix, u);
      var acc := LatestPerPartner(prefix, u);
      var order := LatestPerPartner(ms, u).order;
      var p := Partner(ms[n], u);
      assert LatestPerPartner(ms, u) == Step(acc, ms[n], u);
      assert order == if p in acc.byPartner then acc.order else acc.order + [p];
      forall i, j | 0 <= i < j < |order| ensures MetBefore(ms, u, order[i], order[j]) {
        if j < |acc.order| {
          MetBeforeExtends(ms, n, u, order[i], order[j]);
        } else {
          assert order[j] == p && order[i] == acc.order[i];
          var k :| 0 <= k < |prefix| && Partner(prefix[k], u) == order[i];
          forall k' | 0 <= k' <= k ensures Partner(ms[k'], u) != p {
            assert ms[k'] == prefix[k'];
          }
        }
      }
    }
  }

  /** The map's values in its key insertion order (`Array.from(conversations.values())`). */
  function Gather(byPartner: map<Id, Message>, order: seq<Id>): (r: seq<Message>)
    requires forall i :: 0 <= i < |order| ==> order[i] in byPartner
    ensures |r| == |order|
    ensures forall i :: 0 <= i < |r| ==> r[i] == byPartner[order[i]]
  {
    if order == [] then [] else [byPartner[order[0]]] + Gather(byPartner, order[1..])
  }

  /** The summaries before sorting: the loop's map values in key insertion order. */
  function Heads(ms: seq<Message>, u: Id): (r: seq<Message>)
    ensures |r| == |LatestPerPartner(ms, u).order|
    ensures forall i :: 0 <= i < |r| ==> Partner(r[i], u) == LatestPerPartner(ms, u).order[i]
  {
    var acc := LatestPerPartner(ms, u);
    LatestPerPartnerKeys(ms, u);
    var r := Gather(acc.byPartner, acc.order);
    assert forall i :: 0 <= i < |r| ==> Partner(r[i], u) == acc.order[i] by {
      forall i | 0 <= i < |r| ensures Partner(r[i], u) == acc.order[i] {
        LatestPerPartnerValues(ms, u, acc.order[i]);
      }
    }
    r
  }

  /** Before sorting, the summaries follow the order in which `u` first met their partners. */
  lemma HeadsInMeetingOrder(ms: seq<Message>, u: Id)
    ensures forall i, j :: 0 <= i < j < |Heads(ms, u)| ==>
      MetBefore(ms, u, Partner(Heads(ms, u)[i], u), Partner(Heads(ms, u)[j], u))
  {
    LatestPerPartnerOrder(ms, u);
  }

  /** The result of `getConversations` over the messages `ms` that involve `u`. */
  function Conversations(ms: seq<Message>, u: Id): seq<Message> {
    SortBy(Heads(ms, u), NewestFirst)
  }

  /** Every summary is the first newest message of `ms` with its partner. */
  lemma ConversationsAreLatest(ms: seq<Message>, u: Id)
    ensures forall h :: h in Conversations(ms, u) ==> h in ms && FirstLatest(ms, u, h)
  {
    var acc := LatestPerPartner(ms, u);
    var heads := Heads(ms, u);
    LatestPerPartnerKeys(ms, u);
    forall h | h in Conversations(ms, u) ensures h in ms && FirstLatest(ms, u, h) {
      assert h in heads;
      var i :| 0 <= i < |heads| && heads[i] == h;
      LatestPerPartnerValues(ms, u, acc.order[i]);
    }
  }

  /** No two summaries share a partner. */
  lemma ConversationsOnePerPartner(ms: seq<Message>, u: Id)
    ensures forall i, j :: 0 <= i < j < |Conversations(ms, u)| ==>
      Partner(Conversations(ms, u)[i], u) != Partner(Conversations(ms, u)[j], u)
  {
    var acc := LatestPerPartner(ms, u);
    var heads := Heads(ms, u);
    var r := Conversations(ms, u);
    LatestPerPartnerKeys(ms, u);
    assert Distinct(heads) by {
      forall i, j | 0 <= i < j < |heads| ensures heads[i] != heads[j] {
        assert acc.order[i] != acc.order[j];
      }
    }
    SortByDistinct(heads, NewestFirst);
    forall i, j | 0 <= i < j < |r| ensures Partner(r[i], u) != Partner(r[j], u) {
      assert r[i] in heads && r[j] in heads;
      var a :| 0 <= a < |heads| && heads[a] == r[i];
      var b :| 0 <= b < |heads| && heads[b] == r[j];
      assert r[i] != r[j];
    }
  }

  /** Every partner `u` has exchanged a message with has a summary. */
  lemma ConversationsCoverPartners(ms: seq<Message>, u: Id)
    ensures forall m :: m in ms ==> exists h :: h in Conversations(ms, u) && Partner(h, u) == Partner(m, u)
  {
    var acc := LatestPerPartner(ms, u);
    var heads := Heads(ms, u);
    LatestPerPartnerKeys(ms, u);
    forall m | m in ms ensures exists h :: h in Conversations(ms, u) && Partner(h, u) == Partner(m, u) {
      var i :| 0 <= i < |ms| && ms[i] == m;
      var p := Partner(m, u);
      assert p in acc.order;
      var k :| 0 <= k < |acc.order| && acc.order[k] == p;
      assert heads[k] in Conversations(ms, u);
    }
  }

  /** The summaries come newest first. */
  lemma ConversationsNewestFirst(ms: seq<Message>, u: Id)
    ensures forall i, j :: 0 <= i < j < |Conversations(ms, u)| ==>
      Conversations(ms, u)[i].createdAt >= Conversations(ms, u)[j].createdAt
  {
    var r := Conversations(ms, u);
    forall i, j | 0 <= i < j < |r| ensures r[i].createdAt >= r[j].createdAt {
      assert NewestFirst(r[i]) <= NewestFirst(r[j]);
    }
  }
}
