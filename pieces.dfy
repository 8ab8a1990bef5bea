/**
 * Template values that are either known when the template is generated
 * (literal text) or resolved only when CloudFormation deploys the stack
 * (`Ref` to a parameter, pseudo-parameter or resource, and `Fn::GetAtt`).
 *
 * A `Fn::Join("", pieces)` is kept as the list of its pieces; what it means
 * is the text obtained by resolving every deferred piece in a deployment
 * environment and concatenating the results (`Render`).
 */
module Pieces {

  datatype Piece =
    | Lit(s: string)
    | Ref(name: string)
    | GetAtt(res: string, attr: string)
  {
    predicate IsDeferred() { !Lit? }
  }

  /** What the deployment engine substitutes for deferred pieces. */
  datatype Env = Env(ref: string -> string, att: (string, string) -> string)

  function Resolve(p: Piece, env: Env): string
  {
    match p
    case Lit(s) => s
    case Ref(n) => env.ref(n)
    case GetAtt(r, a) => env.att(r, a)
  }

  /** The text of `Fn::Join("", ps)` once deployed in `env`. */
  function Render(ps: seq<Piece>, env: Env): string
  {
    if ps == [] then "" else Resolve(ps[0], env) + Render(ps[1..], env)
  }

  /** The deferred pieces of `ps`, in order. */
  function Deferred(ps: seq<Piece>): seq<Piece>
  {
    if ps == [] then []
    else if ps[0].IsDeferred() then [ps[0]] + Deferred(ps[1..])
    else Deferred(ps[1..])
  }

  /** Names of the parameters, pseudo-parameters and resources `ps` refers to with `Ref`, in order. */
  function RefNames(ps: seq<Piece>): seq<string>
  {
    if ps == [] then [] else (if ps[0].Ref? then [ps[0].name] else []) + RefNames(ps[1..])
  }

  /** Resources whose attributes `ps` reads through `Fn::GetAtt`, in order. */
  function AttResources(ps: seq<Piece>): seq<string>
  {
    if ps == [] then [] else (if ps[0].GetAtt? then [ps[0].res] else []) + AttResources(ps[1..])
  }

  /** A `Ref` to each of `names`, in order. */
  function Refs(names: seq<string>): seq<Piece>
  {
    seq(|names|, i requires 0 <= i < |names| => Ref(names[i]))
  }

  /** Every piece of the sequence is a literal. */
  function Lits(ss: seq<string>): (r: seq<Piece>)
    ensures |r| == |ss|
    ensures forall i :: 0 <= i < |ss| ==> r[i] == Lit(ss[i])
  {
    if ss == [] then [] else [Lit(ss[0])] + Lits(ss[1..])
  }

  /** Plain concatenation of strings, as `"".join(ss)`. */
  function Concat(ss: seq<string>): string
  {
    if ss == [] then "" else ss[0] + Concat(ss[1..])
  }

  // ---------------------------------------------------------------------
  // Joining and rendering distribute over list concatenation.

  lemma {:induction false} RenderAppend(a: seq<Piece>, b: seq<Piece>, env: Env)
    ensures Render(a + b, env) == Render(a, env) + Render(b, env)
  {
    if a == [] {
      assert a + b == b;
    } else {
      assert (a + b)[1..] == a[1..] + b;
      RenderAppend(a[1..], b, env);
    }
  }

  lemma {:induction false} DeferredAppend(a: seq<Piece>, b: seq<Piece>)
    ensures Deferred(a + b) == Deferred(a) + Deferred(b)
  {
    if a == [] {
      assert a + b == b;
    } else {
      assert (a + b)[1..] == a[1..] + b;
      DeferredAppend(a[1..], b);
    }
  }

  /** A list of literals renders to the same text in every environment. */
  lemma {:induction false} RenderLits(ss: seq<string>, env: Env)
    ensures Render(Lits(ss), env) == Concat(ss)
    ensures Deferred(Lits(ss)) == []
  {
    if ss != [] {
      assert Lits(ss)[1..] == Lits(ss[1..]);
      RenderLits(ss[1..], env);
    }
  }

  /**
   * Rendering depends on a parameter's value only when the pieces refer to it:
   * changing what `Ref(n)` resolves to leaves the text of `ps` unchanged when
   * `Ref(n)` is not among them.
   */
  lemma {:induction false} RenderIgnoresUnreferenced(ps: seq<Piece>, env: Env, n: string, v: string)
    requires Ref(n) !in ps
    ensures Render(ps, env) == Render(ps, Env(x => if x == n then v else env.ref(x), env.att))
  {
    if ps != [] {
      assert Ref(n) !in ps[1..] by {
        assert forall p :: p in ps[1..] ==> p in ps;
      }
      RenderIgnoresUnreferenced(ps[1..], env, n, v);
    }
  }

  /** The names a list refers to are those its parts refer to. */
  lemma {:induction false} RefNamesAppend(a: seq<Piece>, b: seq<Piece>)
    ensures RefNames(a + b) == RefNames(a) + RefNames(b)
    ensures AttResources(a + b) == AttResources(a) + AttResources(b)
  {
    if a == [] {
      assert a + b == b;
    } else {
      var ab := a + b;
      assert ab[0] == a[0] && ab[1..] == a[1..] + b;
      RefNamesAppend(a[1..], b);
      var r := if a[0].Ref? then [a[0].name] else [];
      assert RefNames(ab) == r + (RefNames(a[1..]) + RefNames(b));
      var g := if a[0].GetAtt? then [a[0].res] else [];
      assert AttResources(ab) == g + (AttResources(a[1..]) + AttResources(b));
    }
  }

  /** A list of `Ref`s refers to exactly its names, in order, and reads no attribute. */
  lemma {:induction false} RefsNames(names: seq<string>)
    ensures RefNames(Refs(names)) == names
    ensures AttResources(Refs(names)) == []
  {
    if names != [] {
      assert Refs(names)[1..] == Refs(names[1..]);
      RefsNames(names[1..]);
    }
  }

  /** A list of deferred pieces is its own deferred part. */
  lemma {:induction false} DeferredOnly(ps: seq<Piece>)
    requires forall i :: 0 <= i < |ps| ==> ps[i].IsDeferred()
    ensures Deferred(ps) == ps
  {
    if ps != [] {
      DeferredOnly(ps[1..]);
    }
  }

  /** A list of literal pieces has no deferred part. */
  lemma {:induction false} DeferredNone(ps: seq<Piece>)
    requires forall i :: 0 <= i < |ps| ==> ps[i].Lit?
    ensures Deferred(ps) == []
  {
    if ps != [] {
      DeferredNone(ps[1..]);
    }
  }

  /** Literal pieces refer to nothing: a list refers to what its deferred part refers to. */
  lemma {:induction false} ReferencesOfDeferred(ps: seq<Piece>)
    ensures RefNames(Deferred(ps)) == RefNames(ps)
    ensures AttResources(Deferred(ps)) == AttResources(ps)
  {
    if ps != [] {
      ReferencesOfDeferred(ps[1..]);
      if ps[0].IsDeferred() {
        assert ([ps[0]] + Deferred(ps[1..]))[1..] == Deferred(ps[1..]);
      }
    }
  }
}
