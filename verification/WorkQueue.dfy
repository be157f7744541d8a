/** The work queue as the program keeps it: a slice of item pointers ordered as a binary heap, each
    item storing its own position, beside a map from names to items. `Up`, `Down`, `Push`, `Pop` and
    `Fix` of the class PriorityQueue are the algorithms of Go's container/heap over this slice.

    Every public method is proved to do to the abstract queue `model` what QueueSpec says, and
    `Valid` ties `model` to the real fields. */
module WorkQueue {
  import opened Backoff
  import Spec = QueueSpec

  /** A heap-allocated work item: its record and its position in the heap, -1 once popped. */
  class WorkItem {
    var data: Spec.Item
    var index: int

    constructor (data: Spec.Item)
      ensures this.data == data
    {
      this.data, index := data, 0;
    }
  }

  predicate Less(a: WorkItem, b: WorkItem)
    reads a`data, b`data
  {
    Spec.Precedes(a.data, b.data)
  }

  function Parent(k: nat): (p: nat)
    requires k > 0
    ensures p < k
  {
    (k - 1) / 2
  }

  function Swapped<T>(s: seq<T>, i: nat, j: nat): (t: seq<T>)
    requires i < |s| && j < |s|
    ensures |t| == |s|
  {
    s[i := s[j]][j := s[i]]
  }

  // ---------- heap order ----------

  ghost function AsSet(s: seq<WorkItem>): set<WorkItem> {
    set w | w in s
  }

  /** No item precedes its parent. */
  ghost predicate Ordered(s: seq<WorkItem>)
    reads AsSet(s)`data
  {
    forall k {:trigger Parent(k)} | 0 < k < |s| :: !Less(s[k], s[Parent(k)])
  }

  /** Order holds except that the item at `j` may precede its parent. */
  ghost predicate OrderedButUp(s: seq<WorkItem>, j: nat)
    reads AsSet(s)`data
  {
    && (forall k {:trigger Parent(k)} | 0 < k < |s| && k != j :: !Less(s[k], s[Parent(k)]))
    && (forall k {:trigger Parent(k)} | 0 < k < |s| && Parent(k) == j && j > 0 :: !Less(s[k], s[Parent(j)]))
  }

  /** Order holds in the first `n` positions except around `i`: its children may precede it, and when
      `loose` is set it may precede its parent. */
  ghost predicate OrderedButDown(s: seq<WorkItem>, n: nat, i: nat, loose: bool)
    requires n <= |s|
    reads AsSet(s)`data
  {
    && (forall k {:trigger Parent(k)} | 0 < k < n && Parent(k) != i && !(loose && k == i) :: !Less(s[k], s[Parent(k)]))
    && (forall k {:trigger Parent(k)} | 0 < k < n && Parent(k) == i && i > 0 :: !Less(s[k], s[Parent(i)]))
  }

  /** Order holds in the first `n` positions, but when `loose` is set the item at `i` may precede its
      parent. */
  ghost predicate OrderedIn(s: seq<WorkItem>, n: nat, i: nat, loose: bool)
    requires n <= |s|
    reads AsSet(s)`data
  {
    forall k {:trigger Parent(k)} | 0 < k < n && !(loose && k == i) :: !Less(s[k], s[Parent(k)])
  }

  /** The root of an ordered heap is preceded by no item. */
  lemma {:induction false} RootIsHead(s: seq<WorkItem>, k: nat)
    requires Ordered(s) && k < |s|
    ensures !Less(s[k], s[0])
  {
    if k > 0 { RootIsHead(s, Parent(k)); }
  }

  lemma SwapUp(s: seq<WorkItem>, j: nat)
    requires 0 < j < |s| && OrderedButUp(s, j) && Less(s[j], s[Parent(j)])
    ensures OrderedButUp(Swapped(s, Parent(j), j), Parent(j))
  {
    var p := Parent(j);
    var t := Swapped(s, p, j);
    forall k | 0 < k < |t| && k != p
      ensures !Less(t[k], t[Parent(k)])
    {
      assert !(k != j && Parent(k) != p && Parent(k) != j) || t[k] == s[k];
    }
  }

  /** `j` is a child of `i` among the first `n` positions that no other child of `i` precedes. */
  ghost predicate SmallestChild(s: seq<WorkItem>, n: nat, i: nat, j: nat)
    requires n <= |s|
    reads AsSet(s)`data
  {
    && i < j < n && Parent(j) == i
    && (forall c {:trigger Parent(c)} | 0 < c < n && Parent(c) == i :: !Less(s[c], s[j]))
  }

  lemma SwapDown(s: seq<WorkItem>, n: nat, i: nat, j: nat, loose: bool)
    requires n <= |s| && SmallestChild(s, n, i, j)
    requires OrderedButDown(s, n, i, loose) && Less(s[j], s[i])
    ensures OrderedButDown(Swapped(s, i, j), n, j, false)
  {
    var t := Swapped(s, i, j);
    assert Parent(j) == i;
  }

  lemma StopDown(s: seq<WorkItem>, n: nat, i: nat, j: nat, loose: bool)
    requires n <= |s| && SmallestChild(s, n, i, j)
    requires OrderedButDown(s, n, i, loose) && !Less(s[j], s[i])
    ensures OrderedIn(s, n, i, loose)
  {
  }

  lemma LeafDown(s: seq<WorkItem>, n: nat, i: nat, loose: bool)
    requires n <= |s| && i < |s| && OrderedButDown(s, n, i, loose) && n <= 2 * i + 1
    ensures OrderedIn(s, n, i, loose)
  {
  }

  /** `t` is `s` with changes only before position `n`. */
  ghost predicate SameFrom<T>(s: seq<T>, t: seq<T>, n: nat) {
    |t| == |s| && forall k | n <= k < |s| :: t[k] == s[k]
  }

  /** Moving the last item to the root disturbs the rest of the heap only around the root. */
  lemma LastToRoot(s: seq<WorkItem>, n: nat)
    requires Ordered(s) && |s| == n + 1
    ensures OrderedButDown(Swapped(s, 0, n), n, 0, true)
  {
  }

  /** An item list in which everyone knows their position stays duplicate-free without its last item. */
  lemma DropLast(s: seq<WorkItem>, n: nat)
    requires (forall k | 0 <= k < |s| :: s[k].index == k) && |s| == n + 1
    ensures AsSet(s[..n]) == AsSet(s) - {s[n]}
  {
    forall w | w in s && w != s[n]
      ensures w in s[..n]
    {
      var k :| 0 <= k < |s| && s[k] == w;
      assert s[..n][k] == w;
    }
  }

  lemma {:induction false} DistinctCount(s: seq<WorkItem>)
    requires forall k | 0 <= k < |s| :: s[k].index == k
    ensures |AsSet(s)| == |s|
  {
    if s != [] {
      DropLast(s, |s| - 1);
      DistinctCount(s[..|s| - 1]);
    }
  }

  lemma Grandchildren(s: seq<WorkItem>, i: nat)
    requires Ordered(s) && i < |s|
    ensures forall k {:trigger Parent(k)} | 0 < k < |s| && Parent(k) == i && i > 0 :: !Less(s[k], s[Parent(i)])
  {
  }

  /** `m` records exactly the items of `s` with their current contents. */
  ghost predicate Mirrors(m: map<WorkItem, Spec.Item>, s: set<WorkItem>)
    reads s`data
  {
    m.Keys == s && forall w | w in s :: m[w] == w.data
  }

  lemma MirrorsAdd(m: map<WorkItem, Spec.Item>, s: set<WorkItem>, w: WorkItem)
    requires Mirrors(m, s - {w})
    ensures Mirrors(m[w := w.data], s + {w}) && |m[w := w.data]| == |s + {w}|
  {
    assert m[w := w.data].Keys == s + {w};
  }

  lemma MirrorsRemove(m: map<WorkItem, Spec.Item>, s: set<WorkItem>, w: WorkItem)
    requires Mirrors(m, s)
    ensures Mirrors(m - {w}, s - {w}) && |m - {w}| == |s - {w}|
  {
    assert (m - {w}).Keys == s - {w};
  }

  lemma DequeueMirrors(q: Spec.Queue<WorkItem>, s: set<WorkItem>, w: WorkItem)
    requires Mirrors(q.queued, s) && Mirrors(q.held, q.held.Keys) && w in s && w !in q.held
    ensures var q' := Spec.Dequeue(q, w);
            && Mirrors(q'.queued, s - {w}) && q'.metrics.currentDepth == |s - {w}|
            && Mirrors(q'.held, q'.held.Keys)
  {
    MirrorsRemove(q.queued, s, w);
    MirrorsAdd(q.held, q.held.Keys, w);
    assert Spec.Dequeue(q, w).held.Keys == q.held.Keys + {w};
  }

  lemma InsertMirrors(q: Spec.Queue<WorkItem>, s: set<WorkItem>, w: WorkItem, m: Spec.Metrics)
    requires Mirrors(q.queued, s) && Mirrors(q.held, q.held.Keys) && w !in s
    ensures var q' := Spec.Insert(q, w, w.data, m);
            && Mirrors(q'.queued, s + {w}) && |q'.queued| == |s + {w}|
            && Mirrors(q'.held, q'.held.Keys)
  {
    assert s - {w} == s;
    MirrorsAdd(q.queued, s, w);
  }

  /** All heads share one scheduled time, so one of them is due exactly when each is. */
  lemma HeadsTie(q: Spec.Queue<WorkItem>, head: WorkItem, now: int)
    requires Spec.IsHead(q, head)
    ensures forall h | Spec.IsHead(q, h) :: Spec.Due(q.queued[h], now) <==> Spec.Due(q.queued[head], now)
  {
  }

  // ---------- the heap ----------

  class PriorityQueue {
    var items: seq<WorkItem>
    ghost var elems: set<WorkItem>

    /** Every item knows its position; in particular no item occurs twice. */
    ghost predicate Linked()
      reads this, items
    {
      elems == AsSet(items) && forall k | 0 <= k < |items| :: items[k].index == k
    }

    ghost predicate Valid()
      reads this, elems
    {
      elems == AsSet(items) && Linked() && Ordered(items)
    }

    constructor ()
      ensures Valid() && items == [] && elems == {}
    {
      items, elems := [], {};
    }

    method Swap(i: nat, j: nat)
      requires Linked() && i < |items| && j < |items|
      modifies this`items, elems`index
      ensures Linked() && items == Swapped(old(items), i, j)
    {
      ghost var before := items;
      items := items[i := items[j]][j := items[i]];
      items[i].index := i;
      items[j].index := j;
      forall w ensures w in items <==> w in before {
        if w in before {
          var k :| 0 <= k < |before| && before[k] == w;
          assert items[if k == i then j else if k == j then i else k] == w;
        }
      }
    }

    method Up(start: nat)
      requires Linked() && start < |items| && OrderedButUp(items, start)
      modifies this`items, elems`index
      ensures Valid() && |items| == old(|items|)
    {
      var j := start;
      while j > 0 && Less(items[j], items[Parent(j)])
        invariant 0 <= j < |items| == old(|items|)
        invariant Linked() && OrderedButUp(items, j)
        decreases j
      {
        var i := Parent(j);
        SwapUp(items, j);
        Swap(i, j);
        j := i;
      }
    }

    method SmallerChild(i: nat, n: nat) returns (j: nat)
      requires 2 * i + 1 < n <= |items|
      ensures SmallestChild(items, n, i, j)
    {
      j := 2 * i + 1;
      if j + 1 < n && Less(items[j + 1], items[j]) {
        j := j + 1;
      }
    }

    /** One turn of the sift-down loop at `i`: stop, or swap with the smaller child `next`. */
    method SiftOnce(i: nat, n: nat, ghost loose: bool) returns (stop: bool, next: nat)
      requires Linked() && i < |items| && n <= |items| && OrderedButDown(items, n, i, loose)
      modifies this`items, elems`index
      ensures Linked() && SameFrom(old(items), items, n)
      ensures stop ==> items == old(items) && next == i && OrderedIn(items, n, i, loose)
      ensures !stop ==> i < next < n && OrderedButDown(items, n, next, false)
    {
      if 2 * i + 1 >= n {
        LeafDown(items, n, i, loose);
        return true, i;
      }
      next := SmallerChild(i, n);
      if !Less(items[next], items[i]) {
        StopDown(items, n, i, next, loose);
        return true, i;
      }
      SwapDown(items, n, i, next, loose);
      Swap(i, next);
      stop := false;
    }

    /** Sift the item at `start` down within the first `n` positions; tells whether it moved. */
    method Down(start: nat, n: nat) returns (moved: bool)
      requires Linked() && start < |items| && n <= |items| && OrderedButDown(items, n, start, true)
      modifies this`items, elems`index
      ensures Linked() && SameFrom(old(items), items, n)
      ensures OrderedIn(items, n, start, !moved)
      ensures !moved ==> items == old(items)
    {
      var i := start;
      var stop := false;
      while !stop
        invariant start <= i < |items| == old(|items|)
        invariant Linked() && SameFrom(old(items), items, n)
        invariant !stop ==> OrderedButDown(items, n, i, i == start)
        invariant stop ==> OrderedIn(items, n, i, i == start)
        invariant i == start ==> items == old(items)
        decreases if stop then 0 else |items| + 1 - i
      {
        stop, i := SiftOnce(i, n, i == start);
      }
      moved := i > start;
    }

    /** heap.Push */
    method Push(item: WorkItem)
      requires Valid() && item !in elems
      modifies this, elems`index, item`index
      ensures Valid() && elems == old(elems) + {item} && |items| == |elems|
    {
      item.index := |items|;
      items, elems := items + [item], elems + {item};
      Up(|items| - 1);
      DistinctCount(items);
    }

    /** heap.Pop */
    method Pop() returns (item: WorkItem)
      requires Valid() && items != []
      modifies this, elems`index
      ensures Valid() && item == old(items[0]) && elems == old(elems) - {item} && |items| == |elems|
      ensures item.index == -1
    {
      var n := |items| - 1;
      Count();
      LastToRoot(items, n);
      Swap(0, n);
      var _ := Down(0, n);
      item := PopLast(n);
    }

    /** Cut off the last item. */
    method PopLast(n: nat) returns (item: WorkItem)
      requires Linked() && |items| == n + 1 && OrderedIn(items, n, 0, false)
      modifies this, elems`index
      ensures Valid() && item == old(items[n]) && elems == old(elems) - {item} && |items| == n
      ensures item.index == -1
    {
      item := items[n];
      DropLast(items, n);
      item.index := -1;
      items, elems := items[..n], elems - {item};
    }

    /** heap.Fix */
    method Fix(i: nat)
      requires Linked() && i < |items| && OrderedButDown(items, |items|, i, true)
      modifies this`items, elems`index
      ensures Valid()
    {
      var moved := Down(i, |items|);
      if !moved {
        Up(i);
      }
    }

    /** Raise the priority of a queued item and restore the heap order from its stored position. */
    method Raise(w: WorkItem, priority: int)
      requires Valid() && w in elems
      modifies this`items, elems`index, w`data
      ensures Valid() && w.data == old(w.data).(priority := priority)
    {
      Grandchildren(items, w.index);
      w.data := w.data.(priority := priority);
      Fix(w.index);
    }

    lemma Count()
      requires Linked()
      ensures |items| == |elems|
    {
      DistinctCount(items);
    }

    /** The root is preceded by no item. */
    lemma RootFirst(w: WorkItem)
      requires Valid() && w in elems
      ensures items != [] && items[0] in elems && !Less(w, items[0])
    {
      var k :| 0 <= k < |items| && items[k] == w;
      RootIsHead(items, k);
    }
  }

  /** An item that is given up: the last failure is still counted. */
  function GivenUp(item: Spec.Item): Spec.Item {
    item.(budget := item.budget.(count := item.budget.count + 1))
  }

  // ---------- the queue ----------

  datatype Dequeued = Closed | Wait | Got(item: WorkItem)

  class WorkQueue {
    const cfg: Config
    const items: PriorityQueue
    var itemsMap: map<Spec.NamespacedName, WorkItem>
    var shutdown: bool
    var metrics: Spec.Metrics
    ghost var model: Spec.Queue<WorkItem>   // abstract state; its held items are with workers

    /** The real fields hold what the abstract queue says. */
    ghost predicate Agrees()
      reads this, items, items.elems, model.held.Keys
    {
      && items.Valid()
      && model.cfg == cfg && model.byName == itemsMap && model.metrics == metrics
      && Mirrors(model.queued, items.elems) && Mirrors(model.held, model.held.Keys)
    }

    ghost predicate Valid()
      reads this, items, items.elems, model.held.Keys
    {
      Agrees() && Spec.Inv(model)
    }

    constructor (maxRetries: int, initialDelay: int, maxDelay: int, maxCycles: int)
      ensures Valid() && !shutdown && fresh(items)
      ensures cfg == Config(maxRetries, initialDelay, maxDelay, maxCycles)
      ensures model == Spec.Empty(cfg)
    {
      var config := Config(maxRetries, initialDelay, maxDelay, maxCycles);
      cfg := config;
      items := new PriorityQueue();
      itemsMap, shutdown := map[], false;
      metrics := Spec.Metrics(0, 0, 0, 0, 0);
      model := Spec.Empty(config);
    }

    method Raise(w: WorkItem, priority: int)
      requires Valid() && w in items.elems
      modifies this`model, items`items, items.elems`index, w`data
      ensures Valid() && model == Spec.Raise(old(model), w, priority)
    {
      Spec.RaiseKeepsInv(model, w, priority);
      items.Raise(w, priority);
      model := Spec.Raise(model, w, priority);
    }

    /** Store index and counters, and with them the abstract state `q` that the heap already agrees
        with. */
    method Store(byName: map<Spec.NamespacedName, WorkItem>, m: Spec.Metrics, ghost q: Spec.Queue<WorkItem>)
      requires items.Valid() && Mirrors(q.queued, items.elems) && Mirrors(q.held, q.held.Keys)
      requires q.cfg == cfg && q.byName == byName && q.metrics == m
      modifies this`itemsMap, this`metrics, this`model
      ensures Agrees() && model == q
    {
      itemsMap, metrics := byName, m;
      model := q;
    }

    /** Push and index an item that is neither queued nor held, then store the counters `m` with the
        new depth. */
    method Add(item: WorkItem, m: Spec.Metrics)
      requires Agrees() && item !in items.elems && item !in model.held
      modifies this`itemsMap, this`metrics, this`model, items, items.elems`index, item`index
      ensures Agrees()
      ensures model == Spec.Insert(old(model), item, item.data,
                                   m.(currentDepth := |old(model).queued[item := item.data]|))
    {
      ghost var counted := m.(currentDepth := |model.queued[item := item.data]|);
      InsertMirrors(model, items.elems, item, counted);
      ghost var after := Spec.Insert(model, item, item.data, counted);
      items.Push(item);
      Store(itemsMap[item.data.name := item], m.(currentDepth := |items.items|), after);
    }

    method EnqueueNew(name: Spec.NamespacedName, priority: int, t0: int, t1: int) returns (item: WorkItem)
      requires Valid() && name !in itemsMap
      modifies this`itemsMap, this`metrics, this`model, items, items.elems`index
      ensures Valid() && fresh(item) && model == Spec.Enqueue(old(model), name, priority, t0, t1, item)
    {
      item := new WorkItem(Spec.Item(name, priority, Budget(0, 0), t0, t1));
      Spec.EnqueueKeepsInv(model, name, priority, t0, t1, item);
      Add(item, metrics.(enqueueCount := metrics.enqueueCount + 1));
    }

    /** `t0` and `t1` are the two clock readings that stamp a new item. When the name is new, `added`
        is the item created for it. */
    method Enqueue(name: Spec.NamespacedName, priority: int, t0: int, t1: int) returns (ghost added: WorkItem?)
      requires Valid()
      modifies this`itemsMap, this`metrics, this`model, items, items.elems`index, items.elems`data
      ensures Valid()
      ensures added == null <==> name in old(itemsMap)
      ensures added != null ==> fresh(added) && model == Spec.Enqueue(old(model), name, priority, t0, t1, added)
      ensures added == null ==> forall w :: model == Spec.Enqueue(old(model), name, priority, t0, t1, w)
    {
      if name in itemsMap {
        var existing := itemsMap[name];
        assert existing in model.queued;
        if priority > existing.data.priority {
          Raise(existing, priority);
        }
        added := null;
      } else {
        added := EnqueueNew(name, priority, t0, t1);
      }
    }

    /** The root of the heap is a head of the abstract queue. */
    lemma RootIsSpecHead()
      requires Agrees() && items.items != []
      ensures items.items[0] in items.elems && Spec.IsHead(model, items.items[0])
    {
      forall w | w in items.elems
        ensures !Spec.Precedes(w.data, items.items[0].data)
      {
        items.RootFirst(w);
      }
    }

    /** Remove the root and hand it to the caller. */
    method Take() returns (item: WorkItem)
      requires Agrees() && items.items != [] && items.items[0] !in model.held
      modifies this`itemsMap, this`metrics, this`model, items, items.elems`index
      ensures Agrees() && item == old(items.items[0]) && item in old(model).queued
      ensures model == Spec.Dequeue(old(model), item)
    {
      ghost var root := items.items[0];
      assert root in items.elems;
      ghost var after := Spec.Dequeue(model, root);
      assert Mirrors(after.queued, items.elems - {root}) && Mirrors(after.held, after.held.Keys)
             && after.metrics.currentDepth == |items.elems - {root}| by {
        DequeueMirrors(model, items.elems, root);
      }
      item := items.Pop();
      assert Mirrors(after.queued, items.elems) && Mirrors(after.held, after.held.Keys);
      var counted := metrics.(dequeueCount := metrics.dequeueCount + 1, currentDepth := |items.items|,
                              processingItems := metrics.processingItems + 1);
      Store(itemsMap - {item.data.name}, counted, after);
    }

    /** One turn of the blocking loop of `Dequeue` at clock reading `now`. */
    method TryDequeue(now: int) returns (r: Dequeued)
      requires Valid()
      modifies this`itemsMap, this`metrics, this`model, items, items.elems`index
      ensures Valid()
      ensures r.Closed? <==> old(shutdown)
      ensures r.Got? ==> Spec.IsHead(old(model), r.item) && Spec.Due(old(model).queued[r.item], now)
                         && model == Spec.Dequeue(old(model), r.item)
      ensures !r.Got? ==> model == old(model)
      ensures r.Wait? ==> forall head | Spec.IsHead(model, head) :: !Spec.Due(model.queued[head], now)
      ensures r.Wait? ==> forall head, i | Spec.IsHead(model, head) && i in model.queued ::
                Spec.Due(model.queued[i], now) ==> model.queued[i].priority < model.queued[head].priority
    {
      if shutdown {
        return Closed;
      }
      if |items.items| == 0 {
        return Wait;
      }
      RootIsSpecHead();
      var root := items.items[0];
      if now < root.data.scheduledAt {
        HeadsTie(model, root, now);
        forall head | Spec.IsHead(model, head)
          ensures forall i | i in model.queued ::
                    Spec.Due(model.queued[i], now) ==> model.queued[i].priority < model.queued[head].priority
        {
          Spec.HeldBackIff(model, head, now);
        }
        return Wait;
      }
      Spec.DequeueKeepsInv(model, root);
      root := Take();
      return Got(root);
    }

    /** Charge a failure to the budget of an item that is in nobody's hands and reschedule it; false
        when the budget is used up. */
    method Charge(item: WorkItem, now: int) returns (again: bool)
      requires Agrees() && item !in items.elems && item !in model.held
      modifies item`data
      ensures Agrees()
      ensures again <==> RequeueVerdict(cfg, old(item.data.budget)).Retry?
      ensures again ==>
                var verdict := RequeueVerdict(cfg, old(item.data.budget));
                item.data == old(item.data).(budget := verdict.next, scheduledAt := now + verdict.delay)
      ensures !again ==> item.data == GivenUp(old(item.data))
    {
      var retryCount, retryCycle := item.data.budget.count + 1, item.data.budget.cycle;
      var delay;
      if retryCount > cfg.maxRetries {
        if cfg.maxCycles > 0 && retryCycle >= cfg.maxCycles {
          item.data := item.data.(budget := Budget(retryCount, retryCycle));
          return false;
        }
        retryCycle := retryCycle + 1;
        retryCount := 0;
        delay := cfg.maxDelay;
      } else {
        delay := Delay(cfg.initialDelay, cfg.maxDelay, retryCount);
      }
      item.data := item.data.(budget := Budget(retryCount, retryCycle), scheduledAt := now + delay);
      return true;
    }

    /** Take an item away from its worker, lowering the in-progress gauge by `n`. */
    method Release(item: WorkItem, n: nat)
      requires Agrees() && item in model.held
      modifies this`itemsMap, this`metrics, this`model
      ensures Agrees() && model == Spec.Release(old(model), item, n)
    {
      MirrorsRemove(model.held, model.held.Keys, item);
      Store(itemsMap, metrics.(processingItems := metrics.processingItems - n), Spec.Release(model, item, n));
    }

    /** Take a failed item away from its worker and charge the failure to it. */
    method Collect(item: WorkItem, now: int) returns (again: bool)
      requires Agrees() && item in model.held && item !in items.elems
      modifies this`itemsMap, this`metrics, this`model, item`data
      ensures Agrees() && model == Spec.Release(old(model), item, 1)
      ensures var verdict := RequeueVerdict(cfg, old(model).held[item].budget);
              && (again <==> verdict.Retry?)
              && (again ==> item.data == old(model).held[item].(budget := verdict.next,
                                                                scheduledAt := now + verdict.delay))
    {
      Release(item, 1);
      again := Charge(item, now);
    }

    method GiveBack(item: WorkItem, now: int)
      requires Agrees() && item in model.held && item !in items.elems
      modifies this`itemsMap, this`metrics, this`model, items, items.elems`index, item
      ensures Agrees() && model == Spec.Requeue(old(model), item, now)
    {
      ghost var after := Spec.Requeue(model, item, now);
      var again := Collect(item, now);
      var counted := metrics.(retryCount := metrics.retryCount + 1);
      if again {
        assert after == Spec.Insert(model, item, item.data,
                                    counted.(currentDepth := |model.queued[item := item.data]|));
        Add(item, counted);
      } else {
        assert after == model.(metrics := metrics.(processingItems := metrics.processingItems - 1));
        Drop();
      }
    }

    /** The second decrement of the in-progress gauge, when an item is given up. */
    method Drop()
      requires Agrees()
      modifies this`itemsMap, this`metrics, this`model
      ensures Agrees()
      ensures model == old(model).(metrics := old(metrics).(processingItems := old(metrics).processingItems - 1))
    {
      var counted := metrics.(processingItems := metrics.processingItems - 1);
      Store(itemsMap, counted, model.(metrics := counted));
    }

    /** Give a failed item back; it is queued again after a backoff or dropped. */
    method Requeue(item: WorkItem, now: int)
      requires Valid() && item in model.held
      modifies this`itemsMap, this`metrics, this`model, items, items.elems`index, item
      ensures Valid() && model == Spec.Requeue(old(model), item, now)
    {
      Spec.RequeueKeepsInv(model, item, now);
      assert item !in items.elems;
      GiveBack(item, now);
    }

    /** Mark an item as processed. */
    method Done(item: WorkItem)
      requires Valid() && item in model.held
      modifies this`itemsMap, this`metrics, this`model
      ensures Valid() && model == Spec.Done(old(model), item)
    {
      Spec.ReleaseKeepsInv(model, item, 1);
      Release(item, 1);
    }

    /** What a worker does with an item whose processing failed: once the budget is used up the
        template is paused elsewhere and the item dropped, otherwise it is requeued. */
    method Fail(item: WorkItem, now: int) returns (pause: bool)
      requires Valid() && item in model.held
      modifies this`itemsMap, this`metrics, this`model, items, items.elems`index, item
      ensures Valid() && model == Spec.Fail(old(model), item, now)
      ensures pause <==> WorkerPauses(cfg, old(item.data.budget))
      ensures !pause ==> item in model.queued
      ensures old(model.metrics.processingItems == |model.held|)
              ==> model.metrics.processingItems == |model.held|
    {
      Spec.RemoveOne(model.held, item);
      pause := cfg.maxCycles > 0 && item.data.budget.cycle >= cfg.maxCycles;
      if pause {
        Done(item);
      } else {
        WorkerNeverGivesUp(cfg, item.data.budget);
        Requeue(item, now);
      }
    }

    method Shutdown()
      requires Valid()
      modifies this`shutdown
      ensures Valid() && shutdown && model == old(model)
    {
      shutdown := true;
    }

    method Contains(name: Spec.NamespacedName) returns (b: bool)
      requires Valid()
      ensures b <==> Spec.Contains(model, name)
      ensures b ==> Spec.InHeap(model, name)
    {
      b := name in itemsMap;
      if b {
        assert itemsMap[name] in model.queued;
      }
    }

    method Len() returns (n: nat)
      requires Valid()
      ensures n == |model.queued| == metrics.currentDepth
    {
      items.Count();
      n := |items.items|;
    }
  }
}
