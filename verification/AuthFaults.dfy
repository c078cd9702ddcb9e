/** Which error a bad filter list gives, and what the two leaf filters test. */
module AuthFaults {
  import opened Json
  import opened Sql
  import opened AuthFilter

  /** What is wrong with a filter: for a group, what is wrong with its first bad member. */
  ghost predicate Fault(f: Filter, e: Error)
    decreases f, 1
  {
    match f
    case Missing => e == NilFilter
    case Unset => e == UnknownType
    case Eq(key, _) => key == "" && e == EmptyKey
    case Has(key, ms) => if key == "" then e == EmptyKey else |ms| != 1 && e == NotOneMatch(|ms|)
    case OrOf(fs) => if fs == [] then e == EmptyNested else FirstFault(fs, e)
    case AndOf(fs) => if fs == [] then e == EmptyNested else FirstFault(fs, e)
  }

  ghost predicate FirstFault(fs: seq<Filter>, e: Error)
    decreases fs, 0
  {
    fs != [] && if WellFormed(fs[0]) then FirstFault(fs[1..], e) else Fault(fs[0], e)
  }

  lemma {:induction false} CompileFaults(f: Filter, col: string, idx: nat)
    ensures Compile(f, col, idx).Failed? ==> Fault(f, Compile(f, col, idx).error)
    decreases f, 1
  {
    match f
    case OrOf(fs) => ListFaults(fs, col, idx);
    case AndOf(fs) => ListFaults(fs, col, idx);
    case _ =>
  }

  lemma {:induction false} ListFaults(fs: seq<Filter>, col: string, idx: nat)
    ensures CompileAll(fs, col, idx).PartsFailed? ==> FirstFault(fs, CompileAll(fs, col, idx).error)
    decreases fs, 0
  {
    if fs != [] {
      CompileNumbers(fs[0], col, idx);
      CompileFaults(fs[0], col, idx);
      if Compile(fs[0], col, idx).Emitted? {
        ListFaults(fs[1..], col, Compile(fs[0], col, idx).next);
      }
    }
  }

  /** The error of the entry point is the fault of the first bad filter. */
  lemma TopFaults(fs: seq<Filter>, col: string, idx: nat)
    ensures CompileTop(fs, col, idx).Failed? ==> FirstFault(fs, CompileTop(fs, col, idx).error)
  {
    ListFaults(fs, col, idx);
  }

  /** On a scalar, Eq asks for that value under the key; Has also finds it in a list stored there. */
  lemma ScalarFilters(key: string, m: string, meta: Json, jsonb: Caster)
    requires jsonb(m).Scalar()
    ensures Accepts(Eq(key, m), meta, jsonb) <==> meta.JObj? && key in meta.fields && meta.fields[key] == jsonb(m)
    ensures Accepts(Has(key, [m]), meta, jsonb) <==>
            meta.JObj? && key in meta.fields && (meta.fields[key] == jsonb(m) || (meta.fields[key].JArr? && jsonb(m) in meta.fields[key].items))
  {
  }
}
