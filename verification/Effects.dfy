/** What the operations do to the one memory, element by element. */
module Effects {
  import opened Wrappers
  import opened Coherence

  lemma SpliceAt(d: Data, off: nat, data: Data, i: nat)
    requires off + |data| <= |d| && i < |d|
    ensures Splice(d, off, data)[i] == if off <= i < off + |data| then data[i - off] else d[i]
  {}

  /** The contents of o that an operation starts from: what is there, or if that is
      undefined what the device finds. */
  ghost predicate StartsFrom(q: Memory, found: map<nat, Data>, o: nat, d: Data) {
    o in q.mem && o in found && (q.mem[o] == Some(d) || (q.mem[o].None? && d == found[o]))
  }

  /** Only object o has changed, from d to the same with data from off on. */
  ghost predicate Put(q: Memory, q': Memory, o: nat, d: Data, off: nat, data: Data) {
    && q'.log == q.log && o in q'.mem && off + |data| <= |d|
    && (forall p :: p in q'.mem <==> p in q.mem) && (forall p | p in q.mem && p != o :: q'.mem[p] == q.mem[p])
    && q'.mem[o].Some? && |q'.mem[o].value| == |d|
    && (forall i :: 0 <= i < |data| ==> q'.mem[o].value[off + i] == data[i])
    && forall i :: 0 <= i < |d| && !(off <= i < off + |data|) ==> q'.mem[o].value[i] == d[i]
  }

  lemma PutFrom(q: Memory, q': Memory, o: nat, d: Data, off: nat, data: Data)
    requires o in q.mem && off + |data| <= |d| && q' == q.(mem := q.mem[o := Some(Splice(d, off, data))])
    ensures Put(q, q', o, d, off, data)
  {
    forall i: nat | i < |d| ensures q'.mem[o].value[i] == if off <= i < off + |data| then data[i - off] else d[i] {
      SpliceAt(d, off, data, i);
    }
    hide Splice;
    forall i | 0 <= i < |data| ensures q'.mem[o].value[off + i] == data[i] {
      var k: nat := off + i;
      assert k < |d| && k - off == i;
    }
  }

  /** A write or a fill puts its data at its offset. */
  lemma WritePuts(q: Memory, op: Op, found: map<nat, Data>, d: Data)
    requires Performs(q, op, found) && (op.Write? || op.Fill?) && StartsFrom(q, found, op.obj, d)
    ensures Put(q, Apply(q, op, found), op.obj, d, op.off, op.data)
  {
    assert Value(q, op.obj, found) == d;
    PutFrom(q, Apply(q, op, found), op.obj, d, op.off, op.data);
  }

  /** A copy puts count elements of its source, from its offset there, at its offset in
      the destination. */
  lemma CopyPuts(q: Memory, op: Op, found: map<nat, Data>, s: Data, d: Data)
    requires Performs(q, op, found) && op.Copy? && StartsFrom(q, found, op.src, s) && StartsFrom(q, found, op.dst, d)
    ensures op.from + op.count <= |s|
    ensures Put(q, Apply(q, op, found), op.dst, d, op.off, seq(op.count, i requires 0 <= i < op.count => s[op.from + i]))
  {
    assert Value(q, op.src, found) == s && Value(q, op.dst, found) == d;
    var data := seq(op.count, i requires 0 <= i < op.count => s[op.from + i]);
    assert s[op.from..op.from + op.count] == data;
    PutFrom(q, Apply(q, op, found), op.dst, d, op.off, data);
  }

  /** A read logs the elements of its range, in order, and an undefined object is from
      then on what the device has found. */
  lemma ReadLogs(q: Memory, op: Op, found: map<nat, Data>, d: Data) returns (out: Data)
    requires Performs(q, op, found) && op.Read? && StartsFrom(q, found, op.obj, d)
    ensures var q' := Apply(q, op, found);
            && q'.log == q.log + [map[op.obj := out]] && op.obj in q'.mem && q'.mem[op.obj] == Some(d)
            && (forall p :: p in q'.mem <==> p in q.mem) && forall p | p in q.mem && p != op.obj :: q'.mem[p] == q.mem[p]
    ensures |out| == op.count && op.off + op.count <= |d| && forall i :: 0 <= i < op.count ==> out[i] == d[op.off + i]
  {
    assert Value(q, op.obj, found) == d;
    out := d[op.off..op.off + op.count];
  }

  /** A kernel logs what its arguments start from, and leaves in each what it computes
      from that. */
  lemma KernelPuts(q: Memory, op: Op, found: map<nat, Data>) returns (ins: map<nat, Data>)
    requires Performs(q, op, found) && op.Kernel?
    ensures forall a :: a in ins <==> a in op.args
    ensures forall a | a in op.args :: StartsFrom(q, found, a, ins[a])
    ensures var q', outs := Apply(q, op, found), op.run(ins);
            && q'.log == q.log + [ins] && (forall p :: p in q'.mem <==> p in q.mem)
            && forall p | p in q.mem :: q'.mem[p] == if p in outs then Some(outs[p]) else q.mem[p]
  {
    assert Touched(op) == op.args;
    ins := Values(q, op.args, found);
  }

  /** A read of what has just been put returns it; a read elsewhere in the object returns
      what was there before. */
  lemma ReadBack(q: Memory, q': Memory, o: nat, d: Data, off: nat, data: Data, at: nat, count: nat, found: map<nat, Data>) returns (out: Data)
    requires Put(q, q', o, d, off, data) && at + count <= |d| && o in found
    ensures Performs(q', Read(o, at, count), found) && Apply(q', Read(o, at, count), found).log == q.log + [map[o := out]]
    ensures |out| == count
    ensures at == off && count == |data| ==> out == data
    ensures at + count <= off || off + |data| <= at ==> forall i :: 0 <= i < count ==> out[i] == d[at + i]
  {
    var e := q'.mem[o].value;
    assert Value(q', o, found) == e;
    out := ReadLogs(q', Read(o, at, count), found, e);
    if at == off && count == |data| {
      forall i | 0 <= i < count ensures out[i] == data[i] { assert e[off + i] == data[i]; }
    }
  }
}
