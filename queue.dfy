/**
 * The global scan queue: a FIFO of data items. `Enqueue` pushes at the back;
 * `Dequeue` pops the front item and realizes it.
 */
module ItemQueue {
  import opened Wrappers
  import opened Bytes
  import opened QueueErrors
  import opened DataItems
  import opened UserscriptApi
  import opened LuaHosts

  /** Why the queue refused to start. */
  datatype StartError =
    | QueueFailure(error: QueueErrors.Error)
    | RegistrationFailure(cause: LuaError)

  class Queue {
    /** The pending items, front first. */
    var items: seq<DataItem>
    /** The Lua environment the queue registers its API with (a weak reference). */
    const lua: LuaHost

    /** `Queue::new`: an empty queue. */
    constructor New(vm: LuaHost)
      ensures items == [] && lua == vm
    {
      items := [];
      lua := vm;
    }

    /** `Queue::with_capacity`: an empty queue; the capacity only pre-allocates. */
    constructor WithCapacity(vm: LuaHost, capacity: nat)
      ensures items == [] && lua == vm
    {
      items := [];
      lua := vm;
    }

    /**
     * Actor startup: registers the queue API with the Lua environment, and
     * fails when that environment is not running or the registration fails.
     */
    method OnStart(running: set<object>, setFailure: Option<LuaError>) returns (r: Outcome<StartError>)
      modifies lua
      ensures lua !in running ==> r == Fail(QueueFailure(NoLuaVm)) && lua.globals == old(lua.globals)
      ensures lua in running && setFailure.None? ==>
        r == Pass && lua.globals == old(lua.globals)[QueueApi.Name() := QueueApi]
      ensures lua in running && setFailure.Some? ==>
        r == Fail(RegistrationFailure(setFailure.value)) && lua.globals == old(lua.globals)
      ensures lua.warnings == old(lua.warnings)
    {
      if lua !in running {
        return Fail(QueueFailure(NoLuaVm));
      }
      var init := DefaultInitScript(QueueApi);
      var registered := lua.RegisterUserApiAsDocumented(QueueApi, init, setFailure);
      if registered.Fail? {
        return Fail(RegistrationFailure(registered.error));
      }
      r := Pass;
    }

    /** `Enqueue`: appends at the back; never fails. */
    method Enqueue(item: DataItem)
      modifies this
      ensures items == old(items) + [item]
    {
      items := items + [item];
    }

    /**
     * `Dequeue`: `QueueEmpty` on an empty queue; otherwise removes the front
     * item and returns its realization. The item is consumed even when
     * realizing it fails.
     */
    method Dequeue(fs: FileSystem) returns (r: Result<Realized, QueueErrors.Error>)
      modifies this
      ensures old(items) == [] ==> r == Failure(QueueEmpty) && items == []
      ensures old(items) != [] ==> r == Realize(old(items)[0], fs) && items == old(items)[1..]
    {
      if items == [] {
        return Failure(QueueEmpty);
      }
      var item := items[0];
      items := items[1..];
      r := Realize(item, fs);
    }

    /** `GetLength`: the number of pending items; infallible. */
    method GetLength() returns (n: nat)
      ensures n == |items|
    {
      n := |items|;
    }

    /** The startup handshake: replies unit and changes nothing. */
    method Ping()
      ensures items == old(items)
    {
    }
  }

  /** An item enqueued on an empty queue comes straight back, realized. */
  method EnqueueThenDequeue(item: DataItem, fs: FileSystem) returns (r: Result<Realized, QueueErrors.Error>)
    ensures r == Realize(item, fs)
  {
    var vm := new LuaHost();
    var queue := new Queue.New(vm);
    queue.Enqueue(item);
    r := queue.Dequeue(fs);
  }

  /** Items leave in the order they arrived, and a drained queue reports `QueueEmpty`. */
  method FirstInFirstOut(first: DataItem, second: DataItem, fs: FileSystem)
    returns (r1: Result<Realized, QueueErrors.Error>, r2: Result<Realized, QueueErrors.Error>, r3: Result<Realized, QueueErrors.Error>)
    ensures r1 == Realize(first, fs) && r2 == Realize(second, fs) && r3 == Failure(QueueEmpty)
  {
    var vm := new LuaHost();
    var queue := new Queue.WithCapacity(vm, 16);
    queue.Enqueue(first);
    queue.Enqueue(second);
    r1 := queue.Dequeue(fs);
    r2 := queue.Dequeue(fs);
    r3 := queue.Dequeue(fs);
  }

  /** The documented example: a raw datum comes back with its name, no path, and its bytes. */
  method HelloWorldRoundTrip(fs: FileSystem) returns (r: Result<Realized, QueueErrors.Error>)
    ensures r == Success(Realized("hello_world", None, Ascii("blablabla-Hello World-blablabla")))
  {
    var vm := new LuaHost();
    var queue := new Queue.New(vm);
    queue.Enqueue(NewRawDatum("hello_world", Ascii("blablabla-Hello World-blablabla")));
    r := queue.Dequeue(fs);
  }
}
