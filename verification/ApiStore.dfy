/** The API server: versioned objects, conditional updates and calls that may fail. */
module ApiStore {
  import opened Kubernetes

  datatype Stored = Stored(obj: Obj, version: nat)

  /** `next` is the version the next write will get; no version is ever used twice. */
  datatype Store = Store(objects: map<Key, Stored>, next: nat)

  datatype ApiError = NotFound | AlreadyExists | Conflict | Unavailable

  datatype Reply<+T> = Ok(value: T) | Err(error: ApiError)

  function Read(s: Store, k: Key): Reply<Stored> {
    if k in s.objects then Ok(s.objects[k]) else Err(NotFound)
  }

  /** What a key holds, without its version. */
  function Object(s: Store, k: Key): Option<Obj> {
    if k in s.objects then Some(s.objects[k].obj) else None
  }

  function Put(s: Store, o: Obj): Store {
    Store(s.objects[Scoped(KeyOf(o)) := Stored(Stripped(o), s.next)], s.next + 1)
  }

  function Remove(s: Store, k: Key): Store {
    Store(s.objects - {k}, s.next + 1)
  }

  function Create(s: Store, o: Obj): Reply<Store> {
    if Scoped(KeyOf(o)) in s.objects then Err(AlreadyExists) else Ok(Put(s, o))
  }

  /** An update of a custom resource cannot change its status or its deletion mark. */
  function ServerSide(stored: Obj, o: Obj): Obj {
    if stored.CustomResource? && o.CustomResource?
    then CustomResource(o.cr.(deleting := stored.cr.deleting, deployed := stored.cr.deployed))
    else o
  }

  /** Whether the server deletes the object instead of storing it: marked for deletion, last finalizer gone. */
  predicate Reaped(o: Obj) {
    o.CustomResource? && o.cr.deleting && o.cr.finalizers == {}
  }

  function Update(s: Store, o: Obj, version: nat): Reply<Store> {
    var k := Scoped(KeyOf(o));
    if k !in s.objects then Err(NotFound)
    else if s.objects[k].version != version then Err(Conflict)
    else
      var o' := ServerSide(s.objects[k].obj, o);
      Ok(if Reaped(o') then Remove(s, k) else Put(s, o'))
  }

  /** The status subresource: nothing but the status is written. */
  function UpdateStatus(s: Store, k: Key, deployed: bool, version: nat): Reply<Store> {
    if k !in s.objects || !s.objects[k].obj.CustomResource? then Err(NotFound)
    else if s.objects[k].version != version then Err(Conflict)
    else Ok(Put(s, CustomResource(s.objects[k].obj.cr.(deployed := deployed))))
  }

  /** Objects sit under their own keys, with versions already used. */
  ghost predicate Sound(s: Store) {
    forall k :: k in s.objects ==> KeyOf(s.objects[k].obj) == k && s.objects[k].version < s.next
  }

  /** Writes keep the store sound and touch one key, which gets a new version. */
  lemma UpdateEffect(s: Store, o: Obj, version: nat)
    requires Sound(s)
    ensures var r, k := Update(s, o, version), Scoped(KeyOf(o));
            r.Ok? ==> && Sound(r.value) && r.value.next == s.next + 1
                      && k in s.objects && s.objects[k].version == version
                      && (forall q :: q != k ==> Read(r.value, q) == Read(s, q))
                      && (k in r.value.objects ==>
                            r.value.objects[k] == Stored(Stripped(ServerSide(s.objects[k].obj, o)), s.next))
                      && (!o.CustomResource? ==> k in r.value.objects)
  {
  }

  lemma CreateEffect(s: Store, o: Obj)
    requires Sound(s)
    ensures var r, k := Create(s, o), Scoped(KeyOf(o));
            r.Ok? ==> && Sound(r.value) && r.value.next == s.next + 1 && k !in s.objects
                      && r.value.objects == s.objects[k := Stored(Stripped(o), s.next)]
  {
  }

  // ---- Calls that may fail ----

  /** What becomes of a call: it is answered, refused, or carried out with its answer lost on the way. */
  datatype Fate = Answered | Refused | Lost

  /** The store together with the fate of the calls still to come; past the end of `fates` all are answered. */
  datatype World = World(store: Store, fates: seq<Fate>)

  predicate Faulty(w: World) {
    w.fates != [] && w.fates[0] != Answered
  }

  function Tick(w: World): World {
    w.(fates := if w.fates == [] then [] else w.fates[1..])
  }

  /** The world after a call that failed for the caller, where carrying it out would have led to `s`. */
  function Struck(w: World, s: Store): World {
    if w.fates != [] && w.fates[0].Lost? then Tick(w).(store := s) else Tick(w)
  }

  /** The store after a write, whether it succeeded or not. */
  function StoreAfter(s: Store, r: Reply<Store>): Store {
    match r case Ok(s') => s' case Err(_) => s
  }

  /** A write and what the caller hears of it. */
  function RunWrite(w: World, r: Reply<Store>): (World, bool) {
    if Faulty(w) then (Struck(w, StoreAfter(w.store, r)), false)
    else (Tick(w).(store := StoreAfter(w.store, r)), r.Ok?)
  }

  /** The client, as the reconcilers hold it. */
  class ApiServer {
    var store: Store
    var fates: seq<Fate>

    constructor (store: Store, fates: seq<Fate>)
      ensures this.store == store && this.fates == fates
    {
      this.store, this.fates := store, fates;
    }

    function Now(): World
      reads this
    {
      World(store, fates)
    }

    method Spend() returns (fate: Fate)
      modifies this`fates
      ensures fate == if old(fates) == [] then Answered else old(fates)[0]
      ensures Now() == Tick(old(Now()))
    {
      fate := if fates == [] then Answered else fates[0];
      if fates != [] {
        fates := fates[1..];
      }
    }

    method Get(k: Key) returns (r: Reply<Stored>)
      modifies this`fates
      ensures Now() == Tick(old(Now()))
      ensures r == if Faulty(old(Now())) then Err(Unavailable) else Read(store, Scoped(k))
    {
      var fate := Spend();
      if fate != Answered {
        return Err(Unavailable);
      }
      r := Read(store, Scoped(k));
    }

    /** Carries out a write unless it is refused, and answers unless the answer is lost. */
    method Commit(reply: Reply<Store>) returns (r: Reply<()>)
      modifies this
      ensures Faulty(old(Now())) ==>
                r == Err(Unavailable) && Now() == Struck(old(Now()), StoreAfter(old(store), reply))
      ensures !Faulty(old(Now())) ==>
                && r == (match reply case Ok(_) => Ok(()) case Err(e) => Err(e))
                && Now() == Tick(old(Now())).(store := StoreAfter(old(store), reply))
    {
      var fate := Spend();
      if fate == Refused {
        return Err(Unavailable);
      }
      store := StoreAfter(store, reply);
      if fate == Lost {
        return Err(Unavailable);
      }
      r := match reply case Ok(_) => Ok(()) case Err(e) => Err(e);
    }

    method Post(o: Obj) returns (r: Reply<()>)
      modifies this
      ensures Faulty(old(Now())) ==>
                r == Err(Unavailable) && Now() == Struck(old(Now()), StoreAfter(old(store), Create(old(store), o)))
      ensures !Faulty(old(Now())) ==>
                && r == (match Create(old(store), o) case Ok(_) => Ok(()) case Err(e) => Err(e))
                && Now() == Tick(old(Now())).(store := StoreAfter(old(store), Create(old(store), o)))
    {
      r := Commit(Create(store, o));
    }

    method PutIfCurrent(o: Obj, version: nat) returns (r: Reply<nat>)
      modifies this
      ensures Faulty(old(Now())) ==>
                && r == Err(Unavailable)
                && Now() == Struck(old(Now()), StoreAfter(old(store), Update(old(store), o, version)))
      ensures !Faulty(old(Now())) ==>
                && r == (match Update(old(store), o, version) case Ok(_) => Ok(old(store).next) case Err(e) => Err(e))
                && Now() == Tick(old(Now())).(store := StoreAfter(old(store), Update(old(store), o, version)))
    {
      var next := store.next;
      var reply := Commit(Update(store, o, version));
      r := match reply case Ok(_) => Ok(next) case Err(e) => Err(e);
    }

    method PutStatus(k: Key, deployed: bool, version: nat) returns (r: Reply<()>)
      modifies this
      ensures Faulty(old(Now())) ==>
                && r == Err(Unavailable)
                && Now() == Struck(old(Now()), StoreAfter(old(store), UpdateStatus(old(store), k, deployed, version)))
      ensures !Faulty(old(Now())) ==>
                var reply := UpdateStatus(old(store), k, deployed, version);
                && r == (match reply case Ok(_) => Ok(()) case Err(e) => Err(e))
                && Now() == Tick(old(Now())).(store := StoreAfter(old(store), reply))
    {
      r := Commit(UpdateStatus(store, k, deployed, version));
    }
  }
}
