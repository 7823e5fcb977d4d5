/**
 * The parse pipeline (Parse in pkg/devfile/parse.go): populate the context,
 * build and decode the version's data, resolve the parent first and merge
 * it into the local data, then validate the context and the data.
 *
 * Everything the pipeline reads from outside (the file system, the schema
 * validator, the JSON decoder, the version registry) is a World: for every
 * path it gives the outcome of each step.
 */
module DevfileParse {
  import opened Wrappers
  import opened Common
  import opened DevfileContext
  import Version100

  /** The outcomes of the steps Parse delegates. */
  datatype World = World(
    populate: string -> Result<Ctx, string>,   // DevfileCtx.Populate on a path
    supported: string -> bool,                 // NewDevfileData knows the apiVersion
    decode: seq<byte> -> Option<Devfile>,      // decoding the content into the version's data
    validateCtx: Ctx -> Option<string>,        // DevfileCtx.Validate: the JSON schema check
    validateData: Devfile -> Option<string>)   // the data's own Validate

  datatype ParseError =
    | PopulateFailed(reason: string)
    | UnsupportedVersion(apiVersion: string)
    | DecodeFailed
    | ParentFailed(cause: ParseError)
    | VersionMismatch(parentVersion: string, localVersion: string)
    | ContextInvalid(reason: string)
    | DataInvalid(reason: string)

  /** A parsed devfile: its context and its (merged) data. */
  datatype DevfileObj = DevfileObj(ctx: Ctx, data: Devfile)

  /** The first three steps of Parse: populate the context, create the data, decode the content. */
  function Load(w: World, path: string): (r: Result<DevfileObj, ParseError>)
    ensures r.Ok? <==>
              w.populate(path).Ok? && w.supported(w.populate(path).value.apiVersion) &&
              w.decode(w.populate(path).value.rawContent).Some?
    ensures r.Ok? ==> r.value == DevfileObj(w.populate(path).value, w.decode(w.populate(path).value.rawContent).value)
    ensures w.populate(path).Err? ==> r == Err(PopulateFailed(w.populate(path).error))
    ensures w.populate(path).Ok? && !w.supported(w.populate(path).value.apiVersion) ==>
              r == Err(UnsupportedVersion(w.populate(path).value.apiVersion))
  {
    match w.populate(path)
    case Err(reason) => Err(PopulateFailed(reason))
    case Ok(ctx) =>
      if !w.supported(ctx.apiVersion) then Err(UnsupportedVersion(ctx.apiVersion))
      else
        match w.decode(ctx.rawContent)
        case None => Err(DecodeFailed)
        case Some(data) => Ok(DevfileObj(ctx, data))
  }

  /**
   * The chain of parents Parse follows from `path` ends within `n` steps.
   * The source has no depth limit and no cycle check, so a chain that comes
   * back to a path it has seen recurses without end; this is what rules such
   * chains out.
   */
  ghost predicate Terminates(w: World, path: string, n: nat)
    decreases n
  {
    match Load(w, path)
    case Err(_) => true
    case Ok(local) =>
      local.ctx.parentPath == "" ||
      (n > 0 && Terminates(w, local.ctx.parentPath, n - 1))
  }

  /** Context validation first, then data validation; the first failure is returned. */
  function Validate(w: World, d: DevfileObj): (r: Result<DevfileObj, ParseError>)
    ensures r.Ok? <==> w.validateCtx(d.ctx).None? && w.validateData(d.data).None?
    ensures r.Ok? ==> r.value == d
    ensures w.validateCtx(d.ctx).Some? ==> r == Err(ContextInvalid(w.validateCtx(d.ctx).value))
  {
    match w.validateCtx(d.ctx)
    case Some(reason) => Err(ContextInvalid(reason))
    case None =>
      match w.validateData(d.data)
      case Some(reason) => Err(DataInvalid(reason))
      case None => Ok(d)
  }

  /**
   * Parse: the parent, when there is one, is parsed first; a failure there,
   * or a parent of another apiVersion, aborts before any merge. The merge
   * takes the local data as receiver and never fails, so the error branch
   * after it cannot be taken. `n` bounds the parent chain and is otherwise
   * unused.
   */
  function Parse(w: World, path: string, ghost n: nat): (r: Result<DevfileObj, ParseError>)
    requires Terminates(w, path, n)
    // a success is the local document, loaded, merged and validated
    ensures r.Ok? ==> Load(w, path).Ok? && r.value.ctx == Load(w, path).value.ctx
    ensures r.Ok? ==> r.value.data.apiVersion == Load(w, path).value.data.apiVersion
    ensures r.Ok? ==> w.validateCtx(r.value.ctx).None? && w.validateData(r.value.data).None?
    // a parent is merged only after it parsed and declared the same apiVersion
    ensures r.Ok? && Load(w, path).value.ctx.parentPath != "" ==>
              Parse(w, Load(w, path).value.ctx.parentPath, n - 1).Ok? &&
              Parse(w, Load(w, path).value.ctx.parentPath, n - 1).value.ctx.apiVersion == r.value.ctx.apiVersion
    decreases n
  {
    match Load(w, path)
    case Err(e) => Err(e)
    case Ok(local) =>
      if local.ctx.parentPath == "" then Validate(w, local)
      else
        match Parse(w, local.ctx.parentPath, n - 1)
        case Err(e) => Err(ParentFailed(e))
        case Ok(parent) =>
          if parent.ctx.apiVersion != local.ctx.apiVersion then
            Err(VersionMismatch(parent.ctx.apiVersion, local.ctx.apiVersion))
          else
            Validate(w, local.(data := Version100.MergedDevfile(local.data, parent.data)))
  }

  // ---------------------------------------------------------------------
  // Lemmas
  // ---------------------------------------------------------------------

  /** The bound on the chain only makes the recursion well founded: it never changes the result. */
  lemma {:induction false} ParseIgnoresBound(w: World, path: string, n: nat, m: nat)
    requires Terminates(w, path, n) && Terminates(w, path, m)
    ensures Parse(w, path, n) == Parse(w, path, m)
    decreases n
  {
    match Load(w, path)
    case Err(_) =>
    case Ok(local) =>
      if local.ctx.parentPath != "" {
        ParseIgnoresBound(w, local.ctx.parentPath, n - 1, m - 1);
      }
  }

  /**
   * The path Parse reaches after `k` steps up the parent chain from `path`,
   * if every document on the way loads and names a parent.
   */
  ghost function Reach(w: World, path: string, k: nat): Option<string>
    decreases k
  {
    if k == 0 then Some(path)
    else
      match Load(w, path)
      case Err(_) => None
      case Ok(local) =>
        if local.ctx.parentPath == "" then None else Reach(w, local.ctx.parentPath, k - 1)
  }

  /** Walking `a` steps and then `b` more is walking `a + b` steps. */
  lemma {:induction false} ReachAdd(w: World, path: string, a: nat, b: nat)
    requires Reach(w, path, a).Some?
    ensures Reach(w, path, a + b) == Reach(w, Reach(w, path, a).value, b)
    decreases a
  {
    if a > 0 {
      ReachAdd(w, Load(w, path).value.ctx.parentPath, a - 1, b);
    }
  }

  /** A bound on the chain covers every step Parse takes along it. */
  lemma {:induction false} BoundCoversReach(w: World, path: string, n: nat, k: nat)
    requires Terminates(w, path, n) && Reach(w, path, k).Some? && k > 0
    ensures k <= n && Terminates(w, Reach(w, path, k).value, n - k)
    decreases k
  {
    var pp := Load(w, path).value.ctx.parentPath;
    if k > 1 {
      BoundCoversReach(w, pp, n - 1, k - 1);
    }
  }

  /** A path the chain leads back to after `m` steps admits no bound. */
  lemma {:induction false} CycleAdmitsNoBound(w: World, q: string, m: nat, n: nat)
    requires m > 0 && Reach(w, q, m) == Some(q)
    ensures !Terminates(w, q, n)
    decreases n
  {
    if Terminates(w, q, n) {
      BoundCoversReach(w, q, n, m);
      CycleAdmitsNoBound(w, q, m, n - m);
    }
  }

  /**
   * A parent chain that comes back to a path it has already visited admits
   * no bound: there is no cycle check, so Parse recurses on it forever.
   */
  lemma CyclicChainNeverTerminates(w: World, path: string, i: nat, j: nat, n: nat)
    requires i < j && Reach(w, path, i).Some? && Reach(w, path, j) == Reach(w, path, i)
    ensures !Terminates(w, path, n)
  {
    var q := Reach(w, path, i).value;
    ReachAdd(w, path, i, j - i);
    if i == 0 {
      CycleAdmitsNoBound(w, q, j, n);
    } else if Terminates(w, path, n) {
      BoundCoversReach(w, path, n, i);
      CycleAdmitsNoBound(w, q, j - i, n - i);
    }
  }

  /**
   * Failures of the first three steps are returned as they are: nothing is
   * recursed into, merged or validated.
   */
  lemma LoadFailureIsReturned(w: World, path: string, n: nat)
    requires Terminates(w, path, n) && Load(w, path).Err?
    ensures Parse(w, path, n) == Err(Load(w, path).error)
    ensures w.populate(path).Err? ==> Parse(w, path, n) == Err(PopulateFailed(w.populate(path).error))
  {
  }

  /** A devfile with no parent is its own decoded content, validated; no merge happens. */
  lemma NoParentNoMerge(w: World, path: string, n: nat)
    requires Terminates(w, path, n) && Load(w, path).Ok? && Load(w, path).value.ctx.parentPath == ""
    ensures Parse(w, path, n) == Validate(w, Load(w, path).value)
    ensures Parse(w, path, n).Ok? ==> Parse(w, path, n).value == Load(w, path).value
  {
  }

  /**
   * What happens to a devfile with a parent: a parent failure is wrapped and
   * returned; a parent with another apiVersion is a mismatch; otherwise the
   * parent data is merged into the local data, and validation decides.
   */
  lemma ParentOutcomes(w: World, path: string, n: nat)
    requires Terminates(w, path, n) && Load(w, path).Ok? && Load(w, path).value.ctx.parentPath != ""
    ensures var local := Load(w, path).value;
            var parent := Parse(w, local.ctx.parentPath, n - 1);
            && (parent.Err? ==> Parse(w, path, n) == Err(ParentFailed(parent.error)))
            && (parent.Ok? && parent.value.ctx.apiVersion != local.ctx.apiVersion ==>
                  Parse(w, path, n) == Err(VersionMismatch(parent.value.ctx.apiVersion, local.ctx.apiVersion)))
            && (parent.Ok? && parent.value.ctx.apiVersion == local.ctx.apiVersion ==>
                  Parse(w, path, n) ==
                  Validate(w, local.(data := Version100.MergedDevfile(local.data, parent.value.data))))
  {
  }

  /** When both validations fail, the context's failure is the one reported. */
  lemma ContextValidatedFirst(w: World, d: DevfileObj)
    requires w.validateCtx(d.ctx).Some? && w.validateData(d.data).Some?
    ensures Validate(w, d) == Err(ContextInvalid(w.validateCtx(d.ctx).value))
  {
  }

  /**
   * A parsed devfile keeps its own context, and the local document wins:
   * its apiVersion and components are kept, a set metadata is kept, and its
   * projects and commands come first, unchanged.
   */
  lemma ParseLocalWins(w: World, path: string, n: nat)
    requires Terminates(w, path, n) && Parse(w, path, n).Ok?
    ensures Load(w, path).Ok?
    ensures var d := Parse(w, path, n).value;
            var local := Load(w, path).value;
            && d.ctx == local.ctx
            && d.data.apiVersion == local.data.apiVersion
            && d.data.components == local.data.components
            && (local.data.metadata != ZeroMetadata ==> d.data.metadata == local.data.metadata)
            && |d.data.projects| >= |local.data.projects|
            && d.data.projects[..|local.data.projects|] == local.data.projects
            && |d.data.commands| >= |local.data.commands|
            && d.data.commands[..|local.data.commands|] == local.data.commands
  {
    var local := Load(w, path).value;
    if local.ctx.parentPath != "" {
      var parent := Parse(w, local.ctx.parentPath, n - 1).value;
    }
  }

  /** The documents Parse loads along the parent chain from `path`, the local one first. */
  ghost function Chain(w: World, path: string, n: nat): seq<DevfileObj>
    requires Terminates(w, path, n)
    decreases n
  {
    match Load(w, path)
    case Err(_) => []
    case Ok(local) =>
      if local.ctx.parentPath == "" then [local]
      else [local] + Chain(w, local.ctx.parentPath, n - 1)
  }

  /**
   * A successful parse resolved the whole chain: every document in it has
   * the result's apiVersion, and every project name and command name of
   * every ancestor is present in the result.
   */
  lemma {:induction false} ParseInheritsChain(w: World, path: string, n: nat)
    requires Terminates(w, path, n) && Parse(w, path, n).Ok?
    ensures var d := Parse(w, path, n).value;
            forall i :: 0 <= i < |Chain(w, path, n)| ==>
              && Chain(w, path, n)[i].ctx.apiVersion == d.ctx.apiVersion
              && Version100.Names(Chain(w, path, n)[i].data.projects, ProjectName) <=
                 Version100.Names(d.data.projects, ProjectName)
              && Version100.Names(Chain(w, path, n)[i].data.commands, CommandName) <=
                 Version100.Names(d.data.commands, CommandName)
    decreases n
  {
    var d := Parse(w, path, n).value;
    var local := Load(w, path).value;
    var chain := Chain(w, path, n);
    if local.ctx.parentPath == "" {
      assert chain == [local] && d == local;
    } else {
      var pp := local.ctx.parentPath;
      var parent := Parse(w, pp, n - 1).value;
      ParseInheritsChain(w, pp, n - 1);
      ParseLocalWins(w, pp, n - 1);
      var merged := Version100.MergedDevfile(local.data, parent.data);
      assert d.data == merged && d.ctx == local.ctx;
      Version100.MergedCoversParentNames(local.data.projects, parent.data.projects, ProjectName);
      Version100.MergedCoversParentNames(local.data.commands, parent.data.commands, CommandName);
      assert chain == [local] + Chain(w, pp, n - 1);
      forall i | 0 <= i < |chain|
        ensures chain[i].ctx.apiVersion == d.ctx.apiVersion
        ensures Version100.Names(chain[i].data.projects, ProjectName) <= Version100.Names(d.data.projects, ProjectName)
        ensures Version100.Names(chain[i].data.commands, CommandName) <= Version100.Names(d.data.commands, CommandName)
      {
        if i > 0 {
          assert chain[i] == Chain(w, pp, n - 1)[i - 1];
        }
      }
    }
  }
}
