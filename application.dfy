/** Application (src/core/application.cpp): the registry of the worker
    threads the application starts and the objects it moves onto them, and
    the order in which the destructor takes them down. Threads and objects
    are abstract ids; what the destructor does to them is an event trace. */
module Applications {

  /** The services the constructor creates that take part in the registry. */
  datatype Service =
    | TagReaderClient
    | Database
    | AlbumCoverLoader
    | PlaylistBackend
    | DeviceManager
    | PodcastBackend

  /** A QThread, by the order in which the application created it. */
  type Thread = nat

  /** What the destructor does, in the order it does it. */
  datatype Event =
    | DeleteDeviceManager
    | DeleteLater(target: Service)
    | Quit(thread: Thread)
    | Wait(thread: Thread)

  predicate Distinct<T(==)>(s: seq<T>)
  {
    forall i, j :: 0 <= i < j < |s| ==> s[i] != s[j]
  }

  // ------------------------------------------------------- the teardown trace

  function DeleteLaters(objects: seq<Service>): (r: seq<Event>)
    ensures |r| == |objects|
    ensures forall i :: 0 <= i < |r| ==> r[i] == DeleteLater(objects[i])
  {
    seq(|objects|, i requires 0 <= i < |objects| => DeleteLater(objects[i]))
  }

  function Quits(threads: seq<Thread>): (r: seq<Event>)
    ensures |r| == |threads|
    ensures forall i :: 0 <= i < |r| ==> r[i] == Quit(threads[i])
  {
    seq(|threads|, i requires 0 <= i < |threads| => Quit(threads[i]))
  }

  function Waits(threads: seq<Thread>): (r: seq<Event>)
    ensures |r| == |threads|
    ensures forall i :: 0 <= i < |r| ==> r[i] == Wait(threads[i])
  {
    seq(|threads|, i requires 0 <= i < |threads| => Wait(threads[i]))
  }

  /** The events ~Application emits: the device manager is deleted (when
      there is one), every object moved to a thread is scheduled for
      deletion, every thread is asked to quit, and every thread is waited on. */
  function TeardownTrace(deviceManager: bool, objects: seq<Service>, threads: seq<Thread>): seq<Event>
  {
    (if deviceManager then [DeleteDeviceManager] else [])
      + DeleteLaters(objects) + Quits(threads) + Waits(threads)
  }

  /** The objects scheduled for deletion, the threads asked to quit and the
      threads waited on by a trace, each in trace order. */
  function DeletedLater(events: seq<Event>): seq<Service>
  {
    if |events| == 0 then []
    else (if events[0].DeleteLater? then [events[0].target] else []) + DeletedLater(events[1..])
  }

  function Quitted(events: seq<Event>): seq<Thread>
  {
    if |events| == 0 then []
    else (if events[0].Quit? then [events[0].thread] else []) + Quitted(events[1..])
  }

  function Waited(events: seq<Event>): seq<Thread>
  {
    if |events| == 0 then []
    else (if events[0].Wait? then [events[0].thread] else []) + Waited(events[1..])
  }

  /** The three selections distribute over concatenation. */
  lemma SelectionsDistribute(a: seq<Event>, b: seq<Event>)
    ensures DeletedLater(a + b) == DeletedLater(a) + DeletedLater(b)
    ensures Quitted(a + b) == Quitted(a) + Quitted(b)
    ensures Waited(a + b) == Waited(a) + Waited(b)
  {
    DeletedLaterDistributes(a, b);
    QuittedDistributes(a, b);
    WaitedDistributes(a, b);
  }

  lemma {:induction false} DeletedLaterDistributes(a: seq<Event>, b: seq<Event>)
    ensures DeletedLater(a + b) == DeletedLater(a) + DeletedLater(b)
    decreases |a|
  {
    if |a| == 0 {
      assert a + b == b;
    } else {
      var head := if a[0].DeleteLater? then [a[0].target] else [];
      calc {
        DeletedLater(a + b);
      == { assert (a + b)[0] == a[0]; }
        head + DeletedLater((a + b)[1..]);
      == { assert (a + b)[1..] == a[1..] + b; DeletedLaterDistributes(a[1..], b); }
        head + (DeletedLater(a[1..]) + DeletedLater(b));
      ==
        DeletedLater(a) + DeletedLater(b);
      }
    }
  }

  lemma {:induction false} QuittedDistributes(a: seq<Event>, b: seq<Event>)
    ensures Quitted(a + b) == Quitted(a) + Quitted(b)
    decreases |a|
  {
    if |a| == 0 {
      assert a + b == b;
    } else {
      var head := if a[0].Quit? then [a[0].thread] else [];
      calc {
        Quitted(a + b);
      == { assert (a + b)[0] == a[0]; }
        head + Quitted((a + b)[1..]);
      == { assert (a + b)[1..] == a[1..] + b; QuittedDistributes(a[1..], b); }
        head + (Quitted(a[1..]) + Quitted(b));
      ==
        Quitted(a) + Quitted(b);
      }
    }
  }

  lemma {:induction false} WaitedDistributes(a: seq<Event>, b: seq<Event>)
    ensures Waited(a + b) == Waited(a) + Waited(b)
    decreases |a|
  {
    if |a| == 0 {
      assert a + b == b;
    } else {
      var head := if a[0].Wait? then [a[0].thread] else [];
      calc {
        Waited(a + b);
      == { assert (a + b)[0] == a[0]; }
        head + Waited((a + b)[1..]);
      == { assert (a + b)[1..] == a[1..] + b; WaitedDistributes(a[1..], b); }
        head + (Waited(a[1..]) + Waited(b));
      ==
        Waited(a) + Waited(b);
      }
    }
  }

  lemma {:induction false} DeleteLatersSelect(objects: seq<Service>)
    ensures DeletedLater(DeleteLaters(objects)) == objects
    ensures Quitted(DeleteLaters(objects)) == [] && Waited(DeleteLaters(objects)) == []
    decreases |objects|
  {
    if |objects| > 0 {
      assert DeleteLaters(objects) == [DeleteLater(objects[0])] + DeleteLaters(objects[1..]);
      SelectionsDistribute([DeleteLater(objects[0])], DeleteLaters(objects[1..]));
      DeleteLatersSelect(objects[1..]);
      assert objects == [objects[0]] + objects[1..];
    }
  }

  lemma {:induction false} QuitsSelect(threads: seq<Thread>)
    ensures Quitted(Quits(threads)) == threads
    ensures DeletedLater(Quits(threads)) == [] && Waited(Quits(threads)) == []
    decreases |threads|
  {
    if |threads| > 0 {
      assert Quits(threads) == [Quit(threads[0])] + Quits(threads[1..]);
      SelectionsDistribute([Quit(threads[0])], Quits(threads[1..]));
      QuitsSelect(threads[1..]);
      assert threads == [threads[0]] + threads[1..];
    }
  }

  lemma {:induction false} WaitsSelect(threads: seq<Thread>)
    ensures Waited(Waits(threads)) == threads
    ensures DeletedLater(Waits(threads)) == [] && Quitted(Waits(threads)) == []
    decreases |threads|
  {
    if |threads| > 0 {
      assert Waits(threads) == [Wait(threads[0])] + Waits(threads[1..]);
      SelectionsDistribute([Wait(threads[0])], Waits(threads[1..]));
      WaitsSelect(threads[1..]);
      assert threads == [threads[0]] + threads[1..];
    }
  }

  /** Deleting the device manager is none of the three selected kinds of event. */
  lemma DeviceManagerSelectsNothing()
    ensures var e := [DeleteDeviceManager];
      DeletedLater(e) == [] && Quitted(e) == [] && Waited(e) == []
  {
    var e := [DeleteDeviceManager];
    assert e[1..] == [];
    assert DeletedLater(e) == DeletedLater(e[1..]);
    assert Quitted(e) == Quitted(e[1..]);
    assert Waited(e) == Waited(e[1..]);
  }

  /** The teardown schedules every moved object for deletion, asks every
      thread to quit and waits on every thread, each exactly as often as it
      is listed and in list order. */
  lemma TeardownCoversTheRegistry(deviceManager: bool, objects: seq<Service>, threads: seq<Thread>)
    ensures var events := TeardownTrace(deviceManager, objects, threads);
      && DeletedLater(events) == objects
      && Quitted(events) == threads
      && Waited(events) == threads
  {
    var head: seq<Event> := if deviceManager then [DeleteDeviceManager] else [];
    var deleted := head + DeleteLaters(objects);
    var quit := deleted + Quits(threads);
    assert TeardownTrace(deviceManager, objects, threads) == quit + Waits(threads);
    DeviceManagerSelectsNothing();
    assert DeletedLater(head) == [] && Quitted(head) == [] && Waited(head) == [];
    DeleteLatersSelect(objects);
    QuitsSelect(threads);
    WaitsSelect(threads);
    SelectionsDistribute(head, DeleteLaters(objects));
    assert DeletedLater(deleted) == objects && Quitted(deleted) == [] && Waited(deleted) == [];
    SelectionsDistribute(deleted, Quits(threads));
    assert DeletedLater(quit) == objects && Quitted(quit) == threads && Waited(quit) == [];
    SelectionsDistribute(quit, Waits(threads));
  }

  /** Where each kind of event sits in the teardown: the device manager's
      deletion first, then the deleteLater calls, then the quits, then the waits. */
  lemma TeardownPhases(deviceManager: bool, objects: seq<Service>, threads: seq<Thread>)
    ensures var events := TeardownTrace(deviceManager, objects, threads);
      var d := if deviceManager then 1 else 0;
      && |events| == d + |objects| + 2 * |threads|
      && (forall i :: 0 <= i < |events| ==> (events[i] == DeleteDeviceManager <==> i < d))
      && (forall i :: 0 <= i < |events| ==> (events[i].DeleteLater? <==> d <= i < d + |objects|))
      && (forall i :: 0 <= i < |events| ==>
            (events[i].Quit? <==> d + |objects| <= i < d + |objects| + |threads|))
      && (forall i :: 0 <= i < |events| ==> (events[i].Wait? <==> d + |objects| + |threads| <= i))
  {
    var events := TeardownTrace(deviceManager, objects, threads);
    var d := if deviceManager then 1 else 0;
    var n := d + |objects|;
    forall i | 0 <= i < |events|
      ensures events[i] == (if i < d then DeleteDeviceManager
                            else if i < n then DeleteLater(objects[i - d])
                            else if i < n + |threads| then Quit(threads[i - n])
                            else Wait(threads[i - n - |threads|]))
    {
    }
  }

  /** The destructor's ordering: the device manager is deleted before
      anything else happens, every deleteLater comes before every quit, and
      every quit before every wait. The device manager is deleted exactly when
      there is one. */
  lemma TeardownOrder(deviceManager: bool, objects: seq<Service>, threads: seq<Thread>)
    ensures var events := TeardownTrace(deviceManager, objects, threads);
      && (DeleteDeviceManager in events <==> deviceManager)
      && (forall i, j :: 0 <= i < |events| && 0 <= j < |events| ==>
            (events[i] == DeleteDeviceManager && events[j] != DeleteDeviceManager ==> i < j))
      && (forall i, j :: 0 <= i < |events| && 0 <= j < |events| ==>
            (events[i].DeleteLater? && events[j].Quit? ==> i < j))
      && (forall i, j :: 0 <= i < |events| && 0 <= j < |events| ==>
            (events[i].Quit? && events[j].Wait? ==> i < j))
  {
    TeardownPhases(deviceManager, objects, threads);
    var events := TeardownTrace(deviceManager, objects, threads);
    if deviceManager {
      assert events[0] == DeleteDeviceManager;
    }
  }

  /** A list without repetitions holds each of its elements once. */
  lemma {:induction false} DistinctOnce<T>(s: seq<T>)
    requires Distinct(s)
    ensures forall x :: x in s ==> multiset(s)[x] == 1
    decreases |s|
  {
    if |s| > 0 {
      assert Distinct(s[1..]) by {
        forall i, j | 0 <= i < j < |s[1..]| ensures s[1..][i] != s[1..][j] {
          assert s[1..][i] == s[i + 1] && s[1..][j] == s[j + 1];
        }
      }
      DistinctOnce(s[1..]);
      assert s == [s[0]] + s[1..];
      assert s[0] !in s[1..] by {
        forall k | 0 <= k < |s[1..]| ensures s[1..][k] != s[0] {
          assert s[1..][k] == s[k + 1];
        }
      }
    }
  }

  /** With the registry's threads all different, the teardown asks each of
      them to quit once and waits on each of them once. */
  lemma EachThreadWaitedOnce(deviceManager: bool, objects: seq<Service>, threads: seq<Thread>)
    requires Distinct(threads)
    ensures var events := TeardownTrace(deviceManager, objects, threads);
      forall t :: t in threads ==> multiset(Quitted(events))[t] == 1 && multiset(Waited(events))[t] == 1
  {
    TeardownCoversTheRegistry(deviceManager, objects, threads);
    DistinctOnce(threads);
  }

  // ---------------------------------------------------------------- the class

  /** The application object: its thread registry and what it has done so far. */
  class Application {
    /** threads_: the threads the application created, in creation order. */
    var threads: seq<Thread>
    /** objects_in_threads_: the objects moved to a worker thread, in order. */
    var objectsInThreads: seq<Service>
    /** The thread each moved object lives in (QObject::thread()). */
    var affinity: map<Service, Thread>
    /** The threads started with QThread::start(). */
    var running: set<Thread>
    /** The id the next QThread will have. */
    var nextThread: Thread
    /** Whether device_manager_ points to a live DeviceManager. */
    var deviceManager: bool
    /** The teardown events emitted so far. */
    var trace: seq<Event>

    /** Thread ids are handed out once each, and every moved object has a thread. */
    ghost predicate Valid()
      reads this
    {
      && Distinct(threads)
      && (forall i :: 0 <= i < |threads| ==> threads[i] < nextThread)
      && (forall i :: 0 <= i < |objectsInThreads| ==> objectsInThreads[i] in affinity)
    }

    /** The teardown leaves the registry itself as it was and no device manager. */
    ghost predicate Unchanged(threads0: seq<Thread>, objects0: seq<Service>, affinity0: map<Service, Thread>,
                              running0: set<Thread>, next0: Thread)
      reads this
    {
      && threads == threads0 && objectsInThreads == objects0 && affinity == affinity0
      && running == running0 && nextThread == next0 && !deviceManager
    }

    /** Application::Application: the tag reader, the database and the cover
        loader each get a new thread; the playlist and podcast backends join
        the database's thread; the device manager is created in between. */
    constructor()
      ensures Valid()
      ensures |threads| == 3 && running == {threads[0], threads[1], threads[2]}
      ensures objectsInThreads == [TagReaderClient, Database, AlbumCoverLoader, PlaylistBackend, PodcastBackend]
      ensures affinity.Keys == {TagReaderClient, Database, AlbumCoverLoader, PlaylistBackend, PodcastBackend}
      ensures affinity[TagReaderClient] == threads[0]
      ensures affinity[Database] == threads[1]
      ensures affinity[AlbumCoverLoader] == threads[2]
      ensures affinity[PlaylistBackend] == affinity[Database] && affinity[PodcastBackend] == affinity[Database]
      ensures deviceManager && trace == []
    {
      threads := [];
      objectsInThreads := [];
      affinity := map[];
      running := {};
      nextThread := 0;
      deviceManager := false;
      trace := [];
      new;
      MoveToNewThread(TagReaderClient);
      MoveToNewThread(Database);
      MoveToNewThread(AlbumCoverLoader);
      MoveToThread(PlaylistBackend, affinity[Database]);
      deviceManager := true;
      MoveToThread(PodcastBackend, affinity[Database]);
    }

    /** Application::MoveToNewThread: a new thread is created and started,
        the object moves to it, and both lists grow by one. */
    method MoveToNewThread(obj: Service)
      requires Valid()
      modifies this
      ensures Valid()
      ensures threads == old(threads) + [old(nextThread)]
      ensures old(nextThread) !in old(threads)
      ensures objectsInThreads == old(objectsInThreads) + [obj]
      ensures affinity == old(affinity)[obj := old(nextThread)]
      ensures running == old(running) + {old(nextThread)}
      ensures nextThread == old(nextThread) + 1
      ensures deviceManager == old(deviceManager) && trace == old(trace)
    {
      var thread := nextThread;
      nextThread := nextThread + 1;
      MoveToThread(obj, thread);
      running := running + {thread};
      threads := threads + [thread];
    }

    /** Application::MoveToThread: the object moves to the given thread and
        is recorded; the thread list is left alone. */
    method MoveToThread(obj: Service, thread: Thread)
      requires Valid()
      modifies this
      ensures Valid()
      ensures objectsInThreads == old(objectsInThreads) + [obj]
      ensures affinity == old(affinity)[obj := thread]
      ensures threads == old(threads) && running == old(running) && nextThread == old(nextThread)
      ensures deviceManager == old(deviceManager) && trace == old(trace)
    {
      affinity := affinity[obj := thread];
      objectsInThreads := objectsInThreads + [obj];
    }

    /** Application::~Application: deletes the device manager, then calls
        deleteLater on every moved object, quit on every thread and wait on
        every thread, in three passes over the lists. */
    method Destroy()
      modifies this
      ensures trace == old(trace) + TeardownTrace(old(deviceManager), objectsInThreads, threads)
      ensures Unchanged(old(threads), old(objectsInThreads), old(affinity), old(running), old(nextThread))
    {
      var events: seq<Event> := [];
      if deviceManager {
        events := [DeleteDeviceManager];
      }
      deviceManager := false;
      var objects := objectsInThreads;
      var ts := threads;
      ghost var start := events;
      var i := 0;
      while i < |objects|
        invariant 0 <= i <= |objects|
        invariant events == start + DeleteLaters(objects[..i])
      {
        assert DeleteLaters(objects[..i + 1]) == DeleteLaters(objects[..i]) + [DeleteLater(objects[i])];
        events := events + [DeleteLater(objects[i])];
        i := i + 1;
      }
      assert objects[..i] == objects;
      start := events;
      i := 0;
      while i < |ts|
        invariant 0 <= i <= |ts|
        invariant events == start + Quits(ts[..i])
      {
        assert Quits(ts[..i + 1]) == Quits(ts[..i]) + [Quit(ts[i])];
        events := events + [Quit(ts[i])];
        i := i + 1;
      }
      assert ts[..i] == ts;
      start := events;
      i := 0;
      while i < |ts|
        invariant 0 <= i <= |ts|
        invariant events == start + Waits(ts[..i])
      {
        assert Waits(ts[..i + 1]) == Waits(ts[..i]) + [Wait(ts[i])];
        events := events + [Wait(ts[i])];
        i := i + 1;
      }
      assert ts[..i] == ts;
      trace := trace + events;
    }
  }
}
