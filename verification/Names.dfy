/** Services are named by profile and name, and keyed by the two joined with a slash. */
module Names {
  datatype Name = Name(profile: string, service: string)

  function Join(n: Name): string {
    n.profile + "/" + n.service
  }

  /** The profile of `far` is the profile of `near`, a slash and some text; the service of `near` is that
      text, a slash and the service of `far`. */
  ghost predicate Straddles(near: Name, far: Name) {
    exists m: string :: far.profile == near.profile + "/" + m && near.service == m + "/" + far.service
  }

  /** Two names have the same key exactly when they are equal or one straddles the slash of the other. */
  lemma SameKey(a: Name, b: Name)
    ensures Join(a) == Join(b) <==> a == b || Straddles(a, b) || Straddles(b, a)
  {
    if Straddles(a, b) {
      StraddlersShareKey(a, b);
    }
    if Straddles(b, a) {
      StraddlersShareKey(b, a);
    }
    if Join(a) == Join(b) {
      if |a.profile| < |b.profile| {
        ShorterStraddles(a, b);
      } else if |b.profile| < |a.profile| {
        ShorterStraddles(b, a);
      } else {
        assert a.profile == Join(a)[..|a.profile|] && a.service == Join(a)[|a.profile| + 1..];
        assert b.profile == Join(b)[..|b.profile|] && b.service == Join(b)[|b.profile| + 1..];
      }
    }
  }

  lemma StraddlersShareKey(near: Name, far: Name)
    requires Straddles(near, far)
    ensures Join(near) == Join(far)
  {
  }

  lemma ShorterStraddles(near: Name, far: Name)
    requires Join(near) == Join(far) && |near.profile| < |far.profile|
    ensures Straddles(near, far)
  {
    var (p, q, key) := (|near.profile|, |far.profile|, Join(near));
    var m := key[p + 1..q];
    assert far.profile == key[..q] && near.profile == key[..p] && key[p] == '/';
    assert far.profile == near.profile + "/" + m;
    assert near.service == key[p + 1..] && far.service == key[q + 1..] && key[q] == '/';
    assert near.service == m + "/" + far.service;
  }

  /** Without slashes in the profiles' names, or without slashes in the services', keys are unambiguous. */
  lemma KeysAreUnambiguous(a: Name, b: Name)
    requires ('/' !in a.profile && '/' !in b.profile) || ('/' !in a.service && '/' !in b.service)
    ensures Join(a) == Join(b) ==> a == b
  {
    SameKey(a, b);
  }
}
