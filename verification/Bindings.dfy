/** Subjects of shared role bindings: adding one's own, removing one's own, leaving the rest alone. */
module Bindings {
  import opened Kubernetes

  const API_GROUP: string := "rbac.authorization.k8s.io"

  function AccountSubject(name: string, ns: string): Subject {
    Subject("ServiceAccount", "", name, ns)
  }

  function AddSubject(subjects: seq<Subject>, s: Subject): seq<Subject> {
    if s in subjects then subjects else subjects + [s]
  }

  /** The subjects without those of the given name and namespace, whatever their kind. */
  function RemoveSubject(subjects: seq<Subject>, name: string, ns: string): seq<Subject> {
    if subjects == [] then []
    else
      var last := subjects[|subjects| - 1];
      RemoveSubject(subjects[..|subjects| - 1], name, ns) + (if last.name != name || last.ns != ns then [last] else [])
  }

  // ---- The source's in-place form ----

  class BindingObject {
    var roleRef: RoleRef
    var subjects: seq<Subject>

    constructor (roleRef: RoleRef, subjects: seq<Subject>)
      ensures this.roleRef == roleRef && this.subjects == subjects
    {
      this.roleRef, this.subjects := roleRef, subjects;
    }

    /** Sets the role reference and appends the subject unless an equal one is found. */
    method Update(ref: RoleRef, subject: Subject)
      modifies this
      ensures roleRef == ref && subjects == AddSubject(old(subjects), subject)
    {
      roleRef := ref;
      for i := 0 to |subjects|
        invariant roleRef == ref && subjects == old(subjects)
        invariant subject !in subjects[..i]
      {
        if subjects[i] == subject {
          return;
        }
      }
      subjects := subjects + [subject];
    }

    /** The loop of the finalizers. */
    method Drop(name: string, ns: string)
      modifies this
      ensures roleRef == old(roleRef) && subjects == RemoveSubject(old(subjects), name, ns)
    {
      var kept: seq<Subject> := [];
      for i := 0 to |subjects|
        invariant subjects == old(subjects) && roleRef == old(roleRef)
        invariant kept == RemoveSubject(subjects[..i], name, ns)
      {
        assert subjects[..i + 1][..i] == subjects[..i];
        if subjects[i].name != name || subjects[i].ns != ns {
          kept := kept + [subjects[i]];
        }
      }
      assert subjects[..|subjects|] == subjects;
      subjects := kept;
    }
  }

  // ---- Grants and foreign subjects ----

  /** A gateway's binding bears its account's name, */
  predicate GatewayGrant(n: string, s: Subject) {
    s.name == n
  }

  /** a controller's or a console's the account's namespace and name, joined by a dash. */
  predicate ControllerGrant(n: string, s: Subject) {
    s.ns + "-" + s.name == n
  }

  /** The subjects that a reconciler may manage in the ClusterRoleBinding called `n`. */
  predicate Grant(n: string, s: Subject) {
    GatewayGrant(n, s) || ControllerGrant(n, s)
  }

  /** The two schemes never meet in one subject, so neither reconciler touches the other's grants. */
  lemma SchemesAreDisjoint(n: string, s: Subject)
    ensures !(GatewayGrant(n, s) && ControllerGrant(n, s))
  {
    assert |s.ns + "-" + s.name| > |s.name|;
  }

  function Foreign(n: string, subjects: seq<Subject>): seq<Subject> {
    if subjects == [] then []
    else
      var last := subjects[|subjects| - 1];
      Foreign(n, subjects[..|subjects| - 1]) + (if Grant(n, last) then [] else [last])
  }

  /** Grants have the exact shape the operator writes, and none occurs twice. */
  ghost predicate CleanGrants(n: string, subjects: seq<Subject>) {
    && (forall i :: 0 <= i < |subjects| && Grant(n, subjects[i]) ==>
        subjects[i] == AccountSubject(subjects[i].name, subjects[i].ns))
    && (forall i, j :: 0 <= i < j < |subjects| && Grant(n, subjects[i]) ==> subjects[i] != subjects[j])
  }

  lemma AddKeepsTheRest(n: string, subjects: seq<Subject>, s: Subject)
    requires Grant(n, s)
    ensures Foreign(n, AddSubject(subjects, s)) == Foreign(n, subjects)
    ensures forall x :: x in AddSubject(subjects, s) <==> x in subjects || x == s
    ensures s == AccountSubject(s.name, s.ns) && CleanGrants(n, subjects) ==> CleanGrants(n, AddSubject(subjects, s))
  {
    if s !in subjects {
      assert (subjects + [s])[..|subjects + [s]| - 1] == subjects;
      assert Foreign(n, subjects) + [] == Foreign(n, subjects);
    }
  }

  lemma {:induction false} RemoveMembers(subjects: seq<Subject>, name: string, ns: string)
    ensures forall x :: x in RemoveSubject(subjects, name, ns) <==> x in subjects && !(x.name == name && x.ns == ns)
  {
    if subjects != [] {
      RemoveMembers(subjects[..|subjects| - 1], name, ns);
      assert subjects == subjects[..|subjects| - 1] + [subjects[|subjects| - 1]];
    }
  }

  lemma {:induction false} RemoveKeepsForeign(n: string, subjects: seq<Subject>, name: string, ns: string)
    requires Grant(n, AccountSubject(name, ns))
    ensures Foreign(n, RemoveSubject(subjects, name, ns)) == Foreign(n, subjects)
  {
    if subjects != [] {
      var front, last := subjects[..|subjects| - 1], subjects[|subjects| - 1];
      RemoveKeepsForeign(n, front, name, ns);
      var r := RemoveSubject(front, name, ns);
      if last.name != name || last.ns != ns {
        assert (r + [last])[..|r + [last]| - 1] == r;
      } else {
        assert r + [] == r;
      }
    }
  }

  lemma {:induction false} RemoveKeepsClean(n: string, subjects: seq<Subject>, name: string, ns: string)
    requires CleanGrants(n, subjects)
    ensures CleanGrants(n, RemoveSubject(subjects, name, ns))
  {
    if subjects != [] {
      var front, last := subjects[..|subjects| - 1], subjects[|subjects| - 1];
      assert forall i :: 0 <= i < |front| ==> front[i] == subjects[i];
      RemoveKeepsClean(n, front, name, ns);
      RemoveMembers(front, name, ns);
      var r := RemoveSubject(front, name, ns);
      forall i | 0 <= i < |r| && Grant(n, r[i]) ensures r[i] != last {
        assert r[i] in front;
        var j :| 0 <= j < |front| && front[j] == r[i];
        assert subjects[j] == r[i];
      }
      assert r + [] == r;
    }
  }

  /** Removing twice is removing once: a finalizer may be cut off after the write and run again. */
  lemma {:induction false} RemoveTwice(subjects: seq<Subject>, name: string, ns: string)
    ensures RemoveSubject(RemoveSubject(subjects, name, ns), name, ns) == RemoveSubject(subjects, name, ns)
  {
    if subjects != [] {
      var front, last := subjects[..|subjects| - 1], subjects[|subjects| - 1];
      RemoveTwice(front, name, ns);
      var r := RemoveSubject(front, name, ns);
      if last.name != name || last.ns != ns {
        assert (r + [last])[..|r + [last]| - 1] == r;
      } else {
        assert r + [] == r;
      }
    }
  }
}
