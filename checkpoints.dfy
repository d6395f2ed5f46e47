/** Checkpoint files. The file system is a map from path to saved model
    parameters (of an abstract type P); saving and loading parameters move
    values in and out of it. */
module Checkpoints {
  import opened Outcomes

  predicate IsSuffix(s: string, t: string)
  {
    |s| <= |t| && t[|t| - |s|..] == s
  }

  predicate IsPrefix(s: string, t: string)
  {
    |s| <= |t| && t[..|s|] == s
  }

  /** POSIX `os.path.join` of two components: an absolute second component
      replaces the first, otherwise a separator is inserted unless the first
      is empty or already ends in one. */
  function Join(dir: string, name: string): (p: string)
    ensures IsSuffix(name, p)
    ensures name != [] && name[0] == '/' ==> p == name
    ensures !(name != [] && name[0] == '/') ==> IsPrefix(dir, p) && |dir| <= |p| - |name| <= |dir| + 1
    ensures !(name != [] && name[0] == '/') ==>
              p[|dir|..|p| - |name|] == if dir == [] || dir[|dir| - 1] == '/' then "" else "/"
  {
    if name != [] && name[0] == '/' then name
    else if dir == [] || dir[|dir| - 1] == '/' then dir + name
    else dir + "/" + name
  }

  function SlotName(isBest: bool): string
  {
    if isBest then "best" else "latest"
  }

  /** The file holding a model's "best" or "latest" checkpoint:
      `<ckptDir>/<modelName>_best` or `<ckptDir>/<modelName>_latest`. */
  function CkptPath(ckptDir: string, modelName: string, isBest: bool): (p: string)
    ensures p == Join(ckptDir, modelName + "_" + SlotName(isBest))
    ensures IsSuffix(modelName + "_" + SlotName(isBest), p)
  {
    Join(ckptDir, modelName + "_" + SlotName(isBest))
  }

  /** The two slots of a model are two different files. */
  lemma CkptPathsDistinct(ckptDir: string, modelName: string)
    ensures CkptPath(ckptDir, modelName, true) != CkptPath(ckptDir, modelName, false)
  {
  }

  /** `_checkpoint(is_best)`: overwrite the "latest" file, and the "best" file
      when `isBest`, with the current parameters. */
  function SaveCheckpoint<P>(store: map<string, P>, ckptDir: string, modelName: string,
                             params: P, isBest: bool): map<string, P>
  {
    var latest := store[CkptPath(ckptDir, modelName, false) := params];
    if isBest then latest[CkptPath(ckptDir, modelName, true) := params] else latest
  }

  /** The slot discipline of a checkpoint: "latest" holds the current
      parameters, "best" holds them too (so the two agree) exactly when
      `isBest` and is untouched otherwise, and no other file changes. */
  lemma CheckpointSlots<P>(store: map<string, P>, ckptDir: string, modelName: string,
                           params: P, isBest: bool)
    ensures var s := SaveCheckpoint(store, ckptDir, modelName, params, isBest);
            var best, latest := CkptPath(ckptDir, modelName, true), CkptPath(ckptDir, modelName, false);
            && latest in s && s[latest] == params
            && (isBest ==> best in s && s[best] == params && s[best] == s[latest])
            && (!isBest ==> (best in s <==> best in store) && (best in store ==> s[best] == store[best]))
            && s.Keys == store.Keys + {latest} + (if isBest then {best} else {})
            && (forall path :: path in store && path != latest && path != best ==> s[path] == store[path])
  {
    CkptPathsDistinct(ckptDir, modelName);
  }

  /** `_load_last`: the parameters in the "latest" file, or the error of
      loading a file that is not there. */
  function LoadLatest<P>(store: map<string, P>, ckptDir: string, modelName: string): (r: Result<P>)
    ensures r.Ok? <==> CkptPath(ckptDir, modelName, false) in store
    ensures r.Ok? ==> r.value == store[CkptPath(ckptDir, modelName, false)]
    ensures r.Err? ==> r.error == MissingCheckpoint(CkptPath(ckptDir, modelName, false))
  {
    var path := CkptPath(ckptDir, modelName, false);
    if path in store then Ok(store[path]) else Err(MissingCheckpoint(path))
  }

  /** The parameters a trainer starts with: restored from "latest" when the
      tracker shows prior progress (globalStep > 1), otherwise the model's own. */
  function ResumeParams<P>(store: map<string, P>, ckptDir: string, modelName: string,
                           globalStep: nat, initial: P): (r: Result<P>)
    ensures globalStep <= 1 ==> r == Ok(initial)
    ensures globalStep > 1 ==> r == LoadLatest(store, ckptDir, modelName)
  {
    if globalStep > 1 then LoadLatest(store, ckptDir, modelName) else Ok(initial)
  }

  /** Resuming from a store just written by a checkpoint gives back exactly the
      parameters that were saved, whether or not that save was a best one. */
  lemma ResumeAfterCheckpoint<P>(store: map<string, P>, ckptDir: string, modelName: string,
                                 params: P, isBest: bool, globalStep: nat, initial: P)
    requires globalStep > 1
    ensures ResumeParams(SaveCheckpoint(store, ckptDir, modelName, params, isBest),
                         ckptDir, modelName, globalStep, initial) == Ok(params)
  {
    CheckpointSlots(store, ckptDir, modelName, params, isBest);
  }
}
