/** The filesystem as the scaffold builder sees it: a map from paths (sequences
    of path components) to nodes, changed only by `mkdir -p` and by writing a
    whole file. A run of the builder is a trace of such operations, and the
    tree it leaves is the trace applied, in order, to the tree it started from. */
module FileTree {
  import opened JsValues

  datatype Node = Dir | File(content: string)

  type Path = seq<string>

  type Tree = map<Path, Node>

  /** One filesystem call of the builder: `fs.mkdirSync(path, {recursive: true})`
      or `fs.writeFileSync(path, content)`. */
  datatype Op = Mkdir(path: Path) | Write(path: Path, content: string)

  /** `mkdir -p p` creates `q` (when absent) iff `q` is a non-empty prefix of `p`. */
  predicate Creates(p: Path, q: Path)
  {
    0 < |q| && q <= p
  }

  /** True iff the operation can change what is stored at `q`. */
  predicate Touches(op: Op, q: Path)
  {
    match op
    case Mkdir(p) => Creates(p, q)
    case Write(p, _) => q == p
  }

  /** What the tree holds at `q`, if anything. */
  function Lookup(t: Tree, q: Path): Option<Node>
  {
    if q in t then Some(t[q]) else None
  }

  /** The non-empty prefixes of `p`. */
  function Ancestry(p: Path): (r: set<Path>)
    ensures forall q :: q in r <==> Creates(p, q)
  {
    var r := set i | 1 <= i <= |p| :: p[..i];
    assert forall q :: Creates(p, q) ==> q == p[..|q|];
    r
  }

  /** `fs.mkdirSync(p, {recursive: true})`: every missing directory along `p`
      is created; what already exists is left alone. */
  function MkdirP(t: Tree, p: Path): (r: Tree)
    ensures forall q :: q in r <==> q in t || Creates(p, q)
    ensures forall q :: q in t ==> r[q] == t[q]
    ensures forall q :: q in r && q !in t ==> r[q] == Dir
  {
    t + map q | q in Ancestry(p) && q !in t :: Dir
  }

  /** `fs.writeFileSync(p, c)`: the file at `p` holds exactly `c` afterwards. */
  function WriteFile(t: Tree, p: Path, c: string): (r: Tree)
    ensures Lookup(r, p) == Some(File(c))
    ensures forall q :: q != p ==> Lookup(r, q) == Lookup(t, q)
  {
    t[p := File(c)]
  }

  function Step(t: Tree, op: Op): Tree
  {
    match op
    case Mkdir(p) => MkdirP(t, p)
    case Write(p, c) => WriteFile(t, p, c)
  }

  /** The tree left by performing the trace on `t`, first operation first. */
  function Apply(t: Tree, ops: seq<Op>): Tree
    decreases |ops|
  {
    if |ops| == 0 then t else Apply(Step(t, ops[0]), ops[1..])
  }

  /** One operation changes what is stored at `q` only if it touches `q`;
      a directory never replaces an existing entry; a write always wins. */
  lemma StepAt(t: Tree, op: Op, q: Path)
    ensures !Touches(op, q) ==> Lookup(Step(t, op), q) == Lookup(t, q)
    ensures op.Mkdir? && Touches(op, q) ==>
              Lookup(Step(t, op), q) == (if q in t then Some(t[q]) else Some(Dir))
    ensures op.Write? && Touches(op, q) ==> Lookup(Step(t, op), q) == Some(File(op.content))
  {
  }

  /** Operations that do not touch `q` leave it as it was. */
  lemma {:induction false} ApplyUntouched(t: Tree, ops: seq<Op>, q: Path)
    requires forall op :: op in ops ==> !Touches(op, q)
    ensures Lookup(Apply(t, ops), q) == Lookup(t, q)
    decreases |ops|
  {
    if |ops| > 0 {
      assert ops[0] in ops;
      StepAt(t, ops[0], q);
      assert forall op :: op in ops[1..] ==> op in ops;
      ApplyUntouched(Step(t, ops[0]), ops[1..], q);
    }
  }

  /** When every write to `q` in the trace writes `c`, and `q` already holds
      `c` or the trace writes it, `q` ends up holding `c`: later directory
      creation along `q` does not disturb an existing file. */
  lemma {:induction false} ApplyWritten(t: Tree, ops: seq<Op>, q: Path, c: string)
    requires Lookup(t, q) == Some(File(c)) || Write(q, c) in ops
    requires forall op :: op in ops && op.Write? && op.path == q ==> op.content == c
    ensures Lookup(Apply(t, ops), q) == Some(File(c))
    decreases |ops|
  {
    if |ops| > 0 {
      var t' := Step(t, ops[0]);
      StepAt(t, ops[0], q);
      assert ops[0] in ops;
      assert Lookup(t', q) == Some(File(c)) || Write(q, c) in ops[1..] by {
        if Write(q, c) in ops && ops[0] != Write(q, c) {
          assert ops == [ops[0]] + ops[1..];
        }
      }
      assert forall op :: op in ops[1..] ==> op in ops;
      ApplyWritten(t', ops[1..], q, c);
    }
  }

  /** A path that no operation writes, that was absent or a directory, and
      that the trace creates (or already was a directory) is a directory. */
  lemma {:induction false} ApplyCreated(t: Tree, ops: seq<Op>, q: Path, p: Path)
    requires Lookup(t, q) == None || Lookup(t, q) == Some(Dir)
    requires Lookup(t, q) == Some(Dir) || (Mkdir(p) in ops && Creates(p, q))
    requires forall op :: op in ops && op.Write? ==> op.path != q
    ensures Lookup(Apply(t, ops), q) == Some(Dir)
    decreases |ops|
  {
    if |ops| > 0 {
      var t' := Step(t, ops[0]);
      StepAt(t, ops[0], q);
      assert ops[0] in ops;
      assert Lookup(t', q) == Some(Dir) || Mkdir(p) in ops[1..] by {
        if Mkdir(p) in ops && ops[0] != Mkdir(p) {
          assert ops == [ops[0]] + ops[1..];
        }
      }
      assert forall op :: op in ops[1..] ==> op in ops;
      ApplyCreated(t', ops[1..], q, p);
    }
  }

  /** Performing two traces one after the other is performing their concatenation. */
  lemma {:induction false} ApplyAppend(t: Tree, a: seq<Op>, b: seq<Op>)
    ensures Apply(t, a + b) == Apply(Apply(t, a), b)
    decreases |a|
  {
    if |a| > 0 {
      assert (a + b)[0] == a[0];
      assert (a + b)[1..] == a[1..] + b;
      ApplyAppend(Step(t, a[0]), a[1..], b);
    } else {
      assert a + b == b;
    }
  }

  /** `a` is a prefix of `b` and both reach index `i`: they agree there. */
  lemma PrefixAgrees(a: Path, b: Path, i: int)
    requires a <= b && 0 <= i < |a|
    ensures a[i] == b[i]
  {
  }

  /** Appending cancels on the left. */
  lemma Rebase(d: Path, r: Path, s: Path)
    ensures d + r == d + s <==> r == s
    ensures d + r <= d + s <==> r <= s
  {
    if d + r == d + s {
      assert r == (d + r)[|d|..];
      assert s == (d + s)[|d|..];
    }
    if d + r <= d + s {
      assert forall k :: 0 <= k < |r| ==> r[k] == (d + r)[|d| + k];
    }
    if r <= s {
      assert forall k :: 0 <= k < |d + r| ==> (d + r)[k] == (d + s)[k];
    }
  }

  /** Below a non-empty directory `d`, creation and identity of paths are
      decided by the paths relative to `d`. */
  lemma Below(d: Path)
    requires |d| > 0
    ensures forall r, rel :: Creates(d + r, d + rel) <==> rel == [] || Creates(r, rel)
    ensures forall r, rel :: d + r == d + rel <==> r == rel
  {
    forall r, rel
      ensures Creates(d + r, d + rel) <==> rel == [] || Creates(r, rel)
      ensures d + r == d + rel <==> r == rel
    {
      Rebase(d, rel, r);
      Rebase(d, r, rel);
    }
  }

}
