/** Deletion of a custom resource over whole reconciles, cut off or not. */
module Deletion {
  import opened Kubernetes
  import opened ApiStore
  import opened Tasks
  import opened Runs
  import opened GatewayTheorems
  import Bindings

  /** The resource exists, is marked for deletion and still carries the operator's finalizer. */
  ghost predicate Marked(s: Store, key: Key) {
    && Sound(s) && key in s.objects && s.objects[key].obj.CustomResource?
    && var cr := s.objects[key].obj.cr; cr.deleting && Finalizer(cr) in cr.finalizers
  }

  /** It will clean its binding: always so for a gateway, for a controller while its RBAC is on. */
  ghost predicate Leaving(s: Store, key: Key) {
    Marked(s, key) && CleansUp(s.objects[key].obj.cr)
  }

  ghost function Leaver(s: Store, key: Key): CR
    requires Marked(s, key)
  {
    SetDefaults(s.objects[key].obj.cr)
  }

  /** Not there, or there without the operator's finalizer. */
  ghost predicate Released(s: Store, key: Key) {
    key !in s.objects || (s.objects[key].obj.CustomResource?
        && Finalizer(s.objects[key].obj.cr) !in s.objects[key].obj.cr.finalizers)
  }

  /** The reconcile of a leaving resource, call by call. */
  lemma LeavingRun(w: World, key: Key, c: Choice)
    requires Leaving(w.store, key)
    ensures var cr, version := Leaver(w.store, key), w.store.objects[key].version;
            Reconcile(w, key, c) ==
            if Faulty(w) then (Tick(w), false)
            else
              var (w', ok) := RunFinalize(Tick(w), cr);
              if !ok then (w', false) else RunWrite(w', Update(w'.store, CustomResource(WithoutFinalizer(cr)), version))
  {
    var cr, version := Leaver(w.store, key), w.store.objects[key].version;
    DefaultsKeep(w.store.objects[key].obj.cr);
    if !Faulty(w) {
      var w1 := Tick(w);
      assert w1.(store := w.store) == w1;
      assert Reconcile(w, key, c) == RunToEnd(w1, key, ReadBinding(cr, version), c);
      FinalizeSteps(w1, key, cr, version, c);
      DropSteps(RunFinalize(w1, cr).0, key, cr, version, c);
    }
  }

  /** The write that cleans the binding, when it is carried out. */
  lemma CleanStep(s: Store, key: Key)
    requires Leaving(s, key) && BindingKey(Leaver(s, key)) in s.objects
    ensures var bk := BindingKey(Leaver(s, key));
            && s.objects[bk].obj.ClusterRoleBinding?
            && var r := Update(s, Cleaned(s.objects[bk].obj, Leaver(s, key)), s.objects[bk].version);
               && r.Ok? && Sound(r.value) && (forall k :: k != bk ==> Read(r.value, k) == Read(s, k))
               && Object(r.value, bk) == Some(Cleaned(s.objects[bk].obj, Leaver(s, key)))
               && Leaving(r.value, key) && Read(r.value, key) == Read(s, key)
  {
    hide SetDefaults, BindingName;
    var bk := BindingKey(Leaver(s, key));
    assert KeyOf(s.objects[bk].obj) == bk;
    UpdateEffect(s, Cleaned(s.objects[bk].obj, Leaver(s, key)), s.objects[bk].version);
    var s1 := Update(s, Cleaned(s.objects[bk].obj, Leaver(s, key)), s.objects[bk].version).value;
    assert Read(s1, key) == Read(s, key);
  }

  /** What is left of a resource marked for deletion: nothing, unless others hold it. */
  function LetGo(cr: CR): Option<Obj> {
    if cr.finalizers == {} then None else Some(CustomResource(cr))
  }

  /** The write that drops the finalizer, when it is carried out. */
  lemma DropStep(s: Store, key: Key)
    requires Marked(s, key)
    ensures var r := Update(s, CustomResource(WithoutFinalizer(Leaver(s, key))), s.objects[key].version);
            && r.Ok? && Sound(r.value) && Released(r.value, key)
            && Object(r.value, key) == LetGo(WithoutFinalizer(Leaver(s, key)))
            && forall k :: k != key ==> Read(r.value, k) == Read(s, k)
  {
    DefaultsKeep(s.objects[key].obj.cr);
    UpdateEffect(s, CustomResource(WithoutFinalizer(Leaver(s, key))), s.objects[key].version);
  }

  /** What any reconcile of a leaving resource can do: nothing, clean the binding, or clean it and let go. */
  lemma LeavingEffect(w: World, key: Key, c: Choice)
    requires Leaving(w.store, key)
    ensures var s, s', bk := w.store, Reconcile(w, key, c).0.store, BindingKey(Leaver(w.store, key));
            && Sound(s')
            && (forall k :: k != key && k != bk ==> Read(s', k) == Read(s, k))
            && (s' == s || (bk in s.objects && Object(s', bk) == Some(Cleaned(s.objects[bk].obj, Leaver(s, key)))))
            && (Released(s', key) || (Leaving(s', key) && Read(s', key) == Read(s, key)))
            && (w.fates == [] ==>
                  && (Reconcile(w, key, c).1 <==> bk in s.objects)
                  && (bk in s.objects ==>
                        && Released(s', key) && Object(s', key) == LetGo(WithoutFinalizer(Leaver(s, key)))
                        && Object(s', bk) == Some(Cleaned(s.objects[bk].obj, Leaver(s, key))))
                  && (bk !in s.objects ==> s' == s))
  {
    hide Reconcile, Update, Cleaned, SetDefaults, CleansUp;
    LeavingRun(w, key, c);
    var s, cr := w.store, Leaver(w.store, key);
    var bk := BindingKey(cr);
    if bk in s.objects {
      CleanStep(s, key);
      assert KeyOf(s.objects[key].obj) == key && bk != key;
      var s1 := Update(s, Cleaned(s.objects[bk].obj, cr), s.objects[bk].version).value;
      DropStep(s1, key);
      assert Leaver(s1, key) == cr && s1.objects[key].version == s.objects[key].version;
      var s2 := Update(s1, CustomResource(WithoutFinalizer(cr)), s1.objects[key].version).value;
      assert Read(s2, bk) == Read(s1, bk);
    }
  }

  /** Deletion completes: once the binding exists, the first reconcile without failures releases the resource,
      however many attempts were cut off before it, and the binding has lost exactly the resource's own subject.
      Nothing else changes on the way. */
  lemma {:induction false} DeletionCompletes(s: Store, key: Key, attempts: seq<Attempt>, c: Choice)
    requires Leaving(s, key) && BindingKey(Leaver(s, key)) in s.objects
    ensures var bk := BindingKey(Leaver(s, key));
            var s' := Reconcile(World(Attempts(s, key, attempts), []), key, c).0.store;
            && Released(s', key)
            && Object(s', bk) == Some(Cleaned(s.objects[bk].obj, Leaver(s, key)))
            && (forall k :: k != key && k != bk ==> Read(s', k) == Read(s, k))
    decreases |attempts|
  {
    LeavingEffect(World(s, []), key, c);
    if attempts != [] {
      var a := attempts[0];
      LeavingEffect(World(s, a.fates), key, a.choice);
      var s1 := Reconcile(World(s, a.fates), key, a.choice).0.store;
      var bk := BindingKey(Leaver(s, key));
      CleanedTwice(s.objects[bk].obj, Leaver(s, key));
      if Leaving(s1, key) {
        assert Leaver(s1, key) == Leaver(s, key);
        assert bk in s1.objects;
        DeletionCompletes(s1, key, attempts[1..], c);
      } else {
        ReleasedBySuccess(World(s, a.fates), key, a.choice);
        ReleasedStays(s1, key, attempts[1..], c);
      }
    }
  }

  lemma CleanedTwice(o: Obj, cr: CR)
    requires o.ClusterRoleBinding?
    ensures Cleaned(Cleaned(o, cr), cr) == Cleaned(o, cr)
  {
    Bindings.RemoveTwice(o.subjects, AccountName(cr), cr.meta.ns);
  }

  /** The finalizer only goes after the binding was cleaned. */
  lemma ReleasedBySuccess(w: World, key: Key, c: Choice)
    requires Leaving(w.store, key) && Released(Reconcile(w, key, c).0.store, key)
    ensures var bk := BindingKey(Leaver(w.store, key));
            var s' := Reconcile(w, key, c).0.store;
            && bk in w.store.objects && Object(s', bk) == Some(Cleaned(w.store.objects[bk].obj, Leaver(w.store, key)))
            && (key in s'.objects ==> s'.objects[key].obj.cr.deleting)
  {
    hide Reconcile, Update, SetDefaults, CleansUp;
    var s, cr := w.store, Leaver(w.store, key);
    LeavingRun(w, key, c);
    LeavingEffect(w, key, c);
    DefaultsKeep(s.objects[key].obj.cr);
    DropKeepsMark(s, key);
    if BindingKey(cr) in s.objects {
      CleanStep(s, key);
      var found := s.objects[BindingKey(cr)];
      DropKeepsMark(Update(s, Cleaned(found.obj, cr), found.version).value, key);
    }
  }

  lemma DropKeepsMark(s: Store, key: Key)
    requires Marked(s, key)
    ensures var r := Update(s, CustomResource(WithoutFinalizer(Leaver(s, key))), s.objects[key].version);
            && r.Ok?
            && (key in r.value.objects ==>
                  r.value.objects[key].obj.CustomResource? && r.value.objects[key].obj.cr.deleting)
  {
    DefaultsKeep(s.objects[key].obj.cr);
  }

  /** A released resource, gone or kept by others' finalizers, is left alone. */
  lemma {:induction false} ReleasedStays(s: Store, key: Key, attempts: seq<Attempt>, c: Choice)
    requires Sound(s) && Released(s, key)
    requires key in s.objects ==> s.objects[key].obj.cr.deleting
    ensures Attempts(s, key, attempts) == s && Reconcile(World(s, []), key, c).0.store == s
    decreases |attempts|
  {
    ReleasedRun(World(s, []), key, c);
    if attempts != [] {
      ReleasedRun(World(s, attempts[0].fates), key, attempts[0].choice);
      ReleasedStays(s, key, attempts[1..], c);
    }
  }

  lemma ReleasedRun(w: World, key: Key, c: Choice)
    requires Sound(w.store) && Released(w.store, key)
    requires key in w.store.objects ==> w.store.objects[key].obj.cr.deleting
    ensures Reconcile(w, key, c).0.store == w.store
  {
    if key in w.store.objects {
      DefaultsKeep(w.store.objects[key].obj.cr);
    }
    assert OnFetch(w.store, key) == Done(true);
  }

  /** Without the binding, deletion never completes: the finalizer fails on the missing object whatever the
      flags say, and no number of attempts changes anything. */
  lemma {:induction false} DeletionNeverCompletes(s: Store, key: Key, attempts: seq<Attempt>)
    requires Leaving(s, key) && BindingKey(Leaver(s, key)) !in s.objects
    ensures Attempts(s, key, attempts) == s
    decreases |attempts|
  {
    if attempts != [] {
      LeavingEffect(World(s, attempts[0].fates), key, attempts[0].choice);
      DeletionNeverCompletes(s, key, attempts[1..]);
    }
  }

  /** A reconcile without failures releases the resource if and only if the binding exists. */
  lemma DeletionCompletesIff(s: Store, key: Key, c: Choice)
    requires Leaving(s, key)
    ensures Released(Reconcile(World(s, []), key, c).0.store, key) <==> BindingKey(Leaver(s, key)) in s.objects
  {
    LeavingEffect(World(s, []), key, c);
  }

  /** A controller with its RBAC switched off lets go without looking at the binding. */
  lemma UncleanRelease(s: Store, key: Key, c: Choice)
    requires Marked(s, key) && !CleansUp(s.objects[key].obj.cr)
    ensures var s' := Reconcile(World(s, []), key, c).0.store;
            && Released(s', key) && Object(s', key) == LetGo(WithoutFinalizer(Leaver(s, key)))
            && Reconcile(World(s, []), key, c).1 && forall k :: k != key ==> Read(s', k) == Read(s, k)
  {
    var cr, version := Leaver(s, key), s.objects[key].version;
    var w := World(s, []);
    assert Tick(w).(store := s) == w;
    assert OnFetch(s, key) == DropFinalizer(cr, version);
    assert Reconcile(w, key, c) == RunToEnd(w, key, DropFinalizer(cr, version), c);
    DropSteps(w, key, cr, version, c);
    DropStep(s, key);
  }

  /** When the finalizer is gone after a reconcile without failures, the subject is left behind exactly when it
      was there and the resource is a controller whose RBAC or service account has been switched off. */
  lemma LeftBehindIff(s: Store, key: Key, c: Choice)
    requires Marked(s, key)
    requires BindingKey(Leaver(s, key)) in s.objects
    ensures var cr, s' := Leaver(s, key), Reconcile(World(s, []), key, c).0.store;
            && BindingKey(cr) in s'.objects && s'.objects[BindingKey(cr)].obj.ClusterRoleBinding?
            && s.objects[BindingKey(cr)].obj.ClusterRoleBinding?
            && Released(s', key)
            && (OwnSubject(cr) in s'.objects[BindingKey(cr)].obj.subjects <==>
                  OwnSubject(cr) in s.objects[BindingKey(cr)].obj.subjects && cr.spec.ControllerSpec? && !RbacOn(cr))
  {
    var cr := Leaver(s, key);
    var bk := BindingKey(cr);
    assert KeyOf(s.objects[bk].obj) == bk;
    if CleansUp(s.objects[key].obj.cr) {
      LeavingEffect(World(s, []), key, c);
      Bindings.RemoveMembers(s.objects[bk].obj.subjects, AccountName(cr), cr.meta.ns);
    } else {
      UncleanRelease(s, key, c);
      assert Read(Reconcile(World(s, []), key, c).0.store, bk) == Read(s, bk);
    }
  }
}
