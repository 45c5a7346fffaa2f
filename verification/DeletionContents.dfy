/** What a reconcile leaves of a resource that is marked for deletion, and of its binding. */
module DeletionContents {
  import opened Kubernetes
  import opened ApiStore
  import opened Runs
  import opened Asked
  import opened Deletion
  import Bindings
  import CC = ControllerContents
  import GC = GatewayContents

  function AskedFinalizer(cr: CR): string {
    if cr.spec.GatewaySpec? then "higressgateway.higress.io/finalizer"
    else "higresscontroller.higress.io/finalizer"
  }

  function AskedBinding(cr: CR): Key {
    Key(ClusterRoleBindingKind, "",
        if cr.spec.GatewaySpec? then AskedAccount(cr) else cr.meta.ns + "-" + AskedAccount(cr))
  }

  /** A gateway's binding is cleaned whatever its flags say, a controller's while they are on. */
  predicate Cleans(cr: CR) {
    cr.spec.GatewaySpec? || AskedRbac(cr)
  }

  function FilledIn(cr: CR): CR {
    if cr.spec.GatewaySpec? then GC.FilledIn(cr) else CC.FilledIn(cr)
  }

  /** What is left of the resource: it is gone unless others' finalizers hold it; if they do, it has theirs and its
      defaults. */
  function Remains(cr: CR): Option<Obj> {
    var others := cr.finalizers - {AskedFinalizer(cr)};
    if others == {} then None else Some(CustomResource(FilledIn(cr).(finalizers := others)))
  }

  /** A failure-free reconcile of a resource with its finalizer lets go of it, unless its binding is to be cleaned and
      is not there: then it fails and writes nothing. A binding that is cleaned loses the subjects of the account in the
      resource's namespace and nothing else, and no other object is touched. */
  lemma LettingGo(s: Store, key: Key, c: Choice)
    requires Sound(s) && key in s.objects && s.objects[key].obj.CustomResource? && s.objects[key].obj.cr.deleting
    requires AskedFinalizer(s.objects[key].obj.cr) in s.objects[key].obj.cr.finalizers
    ensures var cr, bk := s.objects[key].obj.cr, AskedBinding(s.objects[key].obj.cr);
            var (w', ok) := Reconcile(World(s, []), key, c);
            && (ok <==> (Cleans(cr) ==> bk in s.objects))
            && (!ok ==> w'.store == s)
            && (ok ==> Object(w'.store, key) == Remains(cr))
            && (ok && Cleans(cr) ==> CleanedOf(AskedAccount(cr), cr.meta.ns, Object(s, bk), Object(w'.store, bk)))
            && (ok ==> forall k :: k != key && (Cleans(cr) ==> k != bk) ==> Read(w'.store, k) == Read(s, k))
  {
    hide Reconcile, SetDefaults, WithoutFinalizer, Cleaned, BindingName;
    var cr, bk := s.objects[key].obj.cr, AskedBinding(s.objects[key].obj.cr);
    SameNames(cr);
    if Cleans(cr) {
      LeavingEffect(World(s, []), key, c);
      if bk in s.objects {
        FoundKind(s, bk);
        CleanedMeans(SetDefaults(cr), s.objects[bk].obj);
      }
    } else {
      UncleanRelease(s, key, c);
    }
  }

  /** The binding without the subjects of one account: the rest is there, in order. */
  ghost predicate CleanedOf(name: string, ns: string, before: Option<Obj>, after: Option<Obj>) {
    && before.Some? && before.value.ClusterRoleBinding? && after.Some? && after.value.ClusterRoleBinding?
    && after.value.meta == before.value.meta && after.value.roleRef == before.value.roleRef
    && after.value.subjects == Others(before.value.subjects, name, ns)
  }

  function Others(subjects: seq<Subject>, name: string, ns: string): seq<Subject> {
    if subjects == [] then []
    else (if subjects[0].name == name && subjects[0].ns == ns then [] else [subjects[0]])
         + Others(subjects[1..], name, ns)
  }

  lemma {:induction false} OthersSnoc(subjects: seq<Subject>, x: Subject, name: string, ns: string)
    ensures Others(subjects + [x], name, ns)
         == Others(subjects, name, ns) + (if x.name == name && x.ns == ns then [] else [x])
  {
    if subjects == [] {
      assert [x][1..] == [];
    } else {
      assert (subjects + [x])[1..] == subjects[1..] + [x];
      OthersSnoc(subjects[1..], x, name, ns);
    }
  }

  lemma {:induction false} RemovalIsOthers(subjects: seq<Subject>, name: string, ns: string)
    ensures Bindings.RemoveSubject(subjects, name, ns) == Others(subjects, name, ns)
  {
    if subjects != [] {
      var front, last := subjects[..|subjects| - 1], subjects[|subjects| - 1];
      RemovalIsOthers(front, name, ns);
      OthersSnoc(front, last, name, ns);
      assert front + [last] == subjects;
    }
  }

  lemma CleanedMeans(d: CR, o: Obj)
    requires o.ClusterRoleBinding?
    ensures CleanedOf(AccountName(d), d.meta.ns, Some(o), Some(Cleaned(o, d)))
  {
    RemovalIsOthers(o.subjects, AccountName(d), d.meta.ns);
  }

  /** The names and flags of the resource are those of its completed form. */
  lemma SameNames(cr: CR)
    ensures var d := SetDefaults(cr);
            && Finalizer(cr) == AskedFinalizer(cr) && BindingKey(d) == AskedBinding(cr)
            && AccountName(d) == AskedAccount(cr) && d.meta == cr.meta && (CleansUp(cr) <==> Cleans(cr))
            && LetGo(WithoutFinalizer(d)) == Remains(cr)
  {
  }
}
