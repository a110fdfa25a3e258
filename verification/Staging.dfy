/**
 Remote media is copied into a bounded temporary file before a publication and
 removed after it. The file system, the network and the executor may fail anywhere.
 */
module Staging {
  import opened Wrappers

  type Bytes = seq<bv8>

  const U64_MAX: nat := 0xFFFF_FFFF_FFFF_FFFF

  const NAME_ATTEMPTS: nat := 16

  datatype Error =
    | Unreachable
    | DisallowedContentType
    | InvalidLength
    | TooLarge(limit: nat, actual: nat)
    | Io
    | NoUniqueName

  /** `length` is the announced content length, if any, and whether it reads as a number. */
  datatype Response = Response(allowedType: bool, length: Option<Result<nat, ()>>, body: Bytes)

  datatype Creation = Created | AlreadyExists | CreationFailed

  /** How many bytes of a body the bounded reader lets through. */
  function ReadLimit(maxBytes: nat): nat
    requires maxBytes <= U64_MAX
  {
    if maxBytes == U64_MAX then U64_MAX else maxBytes + 1
  }

  function Taken(body: Bytes, limit: nat): Bytes {
    if |body| <= limit then body else body[..limit]
  }

  /** Why a response is turned down before anything is written. */
  function Turned(response: Option<Response>, maxBytes: nat): Option<Error> {
    match response
    case None => Some(Unreachable)
    case Some(Response(allowedType, length, _)) =>
      if !allowedType then Some(DisallowedContentType)
      else if length.None? then None
      else if length.value.Err? then Some(InvalidLength)
      else if length.value.value > maxBytes then Some(TooLarge(maxBytes, length.value.value))
      else None
  }

  /** What becomes of a copy; at the largest bound the reader stops silently. */
  function Copied(body: Bytes, maxBytes: nat, refused: bool): Option<Error> {
    if refused then Some(Io)
    else if maxBytes < U64_MAX && |body| > maxBytes then Some(TooLarge(maxBytes, maxBytes + 1))
    else None
  }

  /** Names are drawn until one is free, at most so many. */
  predicate Draws(files: map<string, Bytes>, names: nat -> string, from: nat, to: nat) {
    && from < to <= from + NAME_ATTEMPTS
    && (forall i :: from <= i < to - 1 ==> names(i) in files)
    && (names(to - 1) in files ==> to == from + NAME_ATTEMPTS)
  }

  /** What becomes of the last name drawn. */
  function Named(files: map<string, Bytes>, name: string, refused: bool): Result<string, Error> {
    if name in files then Err(NoUniqueName) else if refused then Err(Io) else Ok(name)
  }

  /**
   The result of staging, settled by the response, the names drawn from number `from` up to
   `to`, and which of the operations from number `op` on are refused: creating the directory,
   creating a file for each name, and the copy.
   */
  predicate StagesTo(files: map<string, Bytes>, response: Option<Response>, maxBytes: nat, faults: nat -> bool,
                     names: nat -> string, op: nat, from: nat, to: nat, r: Result<string, Error>) {
    var turned := Turned(response, maxBytes);
    if turned.Some? then r == Err(turned.value) && to == from
    else if faults(op) then r == Err(Io) && to == from
    else
      && Draws(files, names, from, to)
      && var copy := op + 1 + to - from;
         var name := Named(files, names(to - 1), faults(copy - 1));
         if name.Err? then r == name
         else
           match Copied(response.value.body, maxBytes, faults(copy))
           case None => r == name
           case Some(e) => r == Err(e)
  }

  /** What happens around a publication, in order. */
  datatype Event =
    | Staged(path: string)
    | Executed(path: string, seen: Option<Bytes>, ok: bool)
    | Removed(path: string, ok: bool)

  datatype Source = LocalFile(path: string) | RemoteUrl

  /** The first thing that went wrong. */
  datatype Problem = Disabled | NotStaged(error: Error) | ExecutionFailed | CleanupFailed

  /** The only way a file stays: it was new, and its removal was refused. */
  ghost predicate LeftBehind(before: map<string, Bytes>, after: map<string, Bytes>, t: seq<Event>) {
    exists path ::
      && path !in before && Removed(path, false) in t
      && after.Keys == before.Keys + {path} && forall p :: p in before ==> after[p] == before[p]
  }

  /** A created file is gone again, or left behind. */
  lemma Discarded(before: map<string, Bytes>, after: map<string, Bytes>, path: string)
    requires path !in before && forall p :: p in after && p != path ==> p in before && after[p] == before[p]
    requires forall p :: p in before ==> p in after
    ensures after == before || LeftBehind(before, after, [Removed(path, path !in after)])
  {
    if path in after { assert Removed(path, false) in [Removed(path, false)]; }
  }

  /** Without a staged file no execution; with one, one execution on the whole body, staged before and removed after it. */
  predicate AroundExecution(response: Option<Response>, maxBytes: nat, staged: Result<string, Error>, t: seq<Event>, r: Result<(), Problem>) {
    match staged
    case Err(e) => r == Err(NotStaged(e)) && forall i :: 0 <= i < |t| ==> t[i].Removed?
    case Ok(path) =>
      && |t| == 3 && t[0] == Staged(path) && t[1].Executed? && t[1].path == path && t[2].Removed? && t[2].path == path
      && response.Some? && t[1].seen.Some? && t[1].seen.value <= response.value.body
      && |t[1].seen.value| == (if |response.value.body| <= maxBytes then |response.value.body| else maxBytes)
      && (r.Ok? <==> t[1].ok && t[2].ok)
      && (r == Err(ExecutionFailed) <==> !t[1].ok)
      && (r == Err(CleanupFailed) <==> t[1].ok && !t[2].ok)
  }

  /** Disk, network and executor, each answering by an oracle of its own. */
  class Machine {
    const faults: nat -> bool
    const cuts: nat -> nat
    const names: nat -> string
    var files: map<string, Bytes>
    var operations: nat
    var drawn: nat
    var events: seq<Event>

    constructor (faults: nat -> bool, cuts: nat -> nat, names: nat -> string, files: map<string, Bytes>)
      ensures this.files == files && operations == 0 && drawn == 0 && events == []
      ensures this.faults == faults && this.cuts == cuts && this.names == names
    {
      this.faults, this.cuts, this.names, this.files := faults, cuts, names, files;
      operations, drawn, events := 0, 0, [];
    }

    method Fails() returns (refused: bool)
      modifies this`operations
      ensures operations == old(operations) + 1 && refused == faults(old(operations))
    {
      refused := faults(operations);
      operations := operations + 1;
    }

    /** An exclusive create: never opens a file that is there. */
    method CreateNew(path: string) returns (r: Creation)
      modifies this`operations, this`files
      ensures r == (if path in old(files) then AlreadyExists else if faults(old(operations)) then CreationFailed else Created)
      ensures operations == old(operations) + 1
      ensures files == if r.Created? then old(files)[path := []] else old(files)
    {
      var refused := Fails();
      if path in files { return AlreadyExists; }
      if refused { return CreationFailed; }
      files := files[path := []];
      return Created;
    }

    /** Copies at most `limit` bytes of the body; a failing copy may leave any part behind. */
    method Copy(path: string, body: Bytes, limit: nat) returns (r: Result<nat, ()>)
      requires path in files
      modifies this`operations, this`files
      ensures operations == old(operations) + 1 && (r.Err? <==> faults(old(operations)))
      ensures files.Keys == old(files).Keys && forall p :: p in files && p != path ==> files[p] == old(files)[p]
      ensures r.Ok? ==> files[path] == Taken(body, limit) && r.value == |Taken(body, limit)|
    {
      var cut := cuts(operations);
      var refused := Fails();
      var content := Taken(body, limit);
      if refused {
        files := files[path := Taken(content, cut)];
        return Err(());
      }
      files := files[path := content];
      return Ok(|content|);
    }

    method RemoveFile(path: string) returns (ok: bool)
      modifies this`operations, this`files, this`events
      ensures ok <==> path in old(files) && !faults(old(operations))
      ensures operations == old(operations) + 1
      ensures files == if ok then old(files) - {path} else old(files)
      ensures events == old(events) + [Removed(path, ok)]
    {
      var refused := Fails();
      ok := path in files && !refused;
      if ok { files := files - {path}; }
      events := events + [Removed(path, ok)];
    }

    method CreateUnique() returns (r: Result<string, Error>)
      modifies this`operations, this`files, this`drawn
      ensures Draws(old(files), names, old(drawn), drawn) && operations == old(operations) + drawn - old(drawn)
      ensures r == Named(old(files), names(drawn - 1), faults(operations - 1))
      ensures r.Ok? ==> r.value == names(drawn - 1) && r.value !in old(files) && !faults(operations - 1)
      ensures r.Err? ==> r == Err(if names(drawn - 1) in old(files) then NoUniqueName else Io)
      ensures old(drawn) < drawn <= old(drawn) + 16 && forall i :: old(drawn) <= i < drawn - 1 ==> names(i) in old(files)
      ensures r == Err(NoUniqueName) ==> drawn == old(drawn) + 16
      ensures files == if r.Ok? then old(files)[r.value := []] else old(files)
    {
      for attempt := 0 to NAME_ATTEMPTS
        invariant files == old(files) && drawn == old(drawn) + attempt && operations == old(operations) + attempt
        invariant forall i :: old(drawn) <= i < drawn ==> names(i) in old(files)
      {
        var path := names(drawn);
        drawn := drawn + 1;
        var created := CreateNew(path);
        if created.Created? { return Ok(path); }
        if created.CreationFailed? { return Err(Io); }
      }
      return Err(NoUniqueName);
    }

    /** Fills a created file within the bound, or tries once to remove it again. */
    method CopyOrDiscard(path: string, body: Bytes, maxBytes: nat) returns (r: Result<(), Error>)
      requires maxBytes <= U64_MAX && path in files
      modifies this`operations, this`files, this`events
      ensures r == if faults(old(operations)) then Err(Io)
                   else if |body| > maxBytes && maxBytes < 0xFFFF_FFFF_FFFF_FFFF then Err(TooLarge(maxBytes, maxBytes + 1))
                   else Ok(())
      ensures r.Ok? ==>
        files == old(files)[path := Taken(body, U64_MAX)] && |files[path]| <= maxBytes && events == old(events)
      ensures r.Ok? && |body| <= maxBytes ==> files == old(files)[path := body]
      ensures r.Err? ==>
        && events == old(events) + [Removed(path, !faults(old(operations) + 1))]
        && files.Keys == old(files).Keys - (if faults(old(operations) + 1) then {} else {path})
        && forall p :: p in files && p != path ==> files[p] == old(files)[p]
    {
      var copied := Copy(path, body, ReadLimit(maxBytes));
      if copied.Err? {
        var removed := RemoveFile(path);
        return Err(Io);
      }
      if copied.value > maxBytes {
        var removed := RemoveFile(path);
        return Err(TooLarge(maxBytes, copied.value));
      }
      assert files == old(files)[path := Taken(body, U64_MAX)];
      return Ok(());
    }

    /**
     Copies a response into a fresh file of at most `maxBytes` bytes. An error leaves no
     file behind, unless the removal of the file it had created was refused.
     */
    method Stage(response: Option<Response>, maxBytes: nat) returns (r: Result<string, Error>)
      requires maxBytes <= U64_MAX
      modifies this`files, this`operations, this`drawn, this`events
      ensures StagesTo(old(files), response, maxBytes, faults, names, old(operations), old(drawn), drawn, r)
      ensures old(events) <= events
      ensures r.Ok? ==>
        && response.Some? && r.value !in old(files) && events == old(events)
        && files == old(files)[r.value := Taken(response.value.body, U64_MAX)] && |files[r.value]| <= maxBytes
        && (|response.value.body| <= maxBytes ==> files[r.value] == response.value.body)
      ensures r.Err? ==> files == old(files) || LeftBehind(old(files), files, events[|old(events)|..])
      ensures r.Err? ==> forall i :: |old(events)| <= i < |events| ==> events[i].Removed?
    {
      hide Draws;
      hide Taken;
      hide LeftBehind;
      if response.None? { return Err(Unreachable); }
      var Response(allowedType, length, body) := response.value;
      if !allowedType { return Err(DisallowedContentType); }
      if length.Some? {
        if length.value.Err? { return Err(InvalidLength); }
        if length.value.value > maxBytes { return Err(TooLarge(maxBytes, length.value.value)); }
      }
      var noDirectory := Fails();
      if noDirectory { return Err(Io); }
      var created := CreateUnique();
      if created.Err? { return Err(created.error); }
      var filled := Fill(created.value, body, maxBytes, old(files));
      return if filled.Err? then Err(filled.error) else Ok(created.value);
    }

    /** The copy into a file just created beside those of `before`. */
    method Fill(path: string, body: Bytes, maxBytes: nat, ghost before: map<string, Bytes>) returns (r: Result<(), Error>)
      requires maxBytes <= U64_MAX && path !in before && files == before[path := []]
      modifies this`operations, this`files, this`events
      ensures old(events) <= events
      ensures r == match Copied(body, maxBytes, faults(old(operations))) case None => Ok(()) case Some(e) => Err(e)
      ensures r.Ok? ==>
        && files == before[path := Taken(body, U64_MAX)] && |files[path]| <= maxBytes && events == old(events)
        && (|body| <= maxBytes ==> files[path] == body)
      ensures r.Err? ==> files == before || LeftBehind(before, files, events[|old(events)|..])
      ensures r.Err? ==> forall i :: |old(events)| <= i < |events| ==> events[i].Removed?
    {
      r := CopyOrDiscard(path, body, maxBytes);
      if r.Err? {
        Discarded(before, files, path);
        assert events[|old(events)|..] == [Removed(path, path !in files)];
      } else {
        assert files == before[path := Taken(body, U64_MAX)];
      }
    }

    /** The executor on a local file. */
    method Execute(path: string) returns (ok: bool)
      modifies this`operations, this`events
      ensures operations == old(operations) + 1 && ok == !faults(old(operations))
      ensures events == old(events) + [Executed(path, if path in files then Some(files[path]) else None, ok)]
    {
      var failed := Fails();
      ok := !failed;
      events := events + [Executed(path, if path in files then Some(files[path]) else None, ok)];
    }

    /** Publishes a remote source through a staged file. */
    method PublishRemote(response: Option<Response>, maxBytes: nat) returns (r: Result<(), Problem>, ghost staged: Result<string, Error>)
      requires maxBytes <= U64_MAX
      modifies this`files, this`operations, this`drawn, this`events
      ensures StagesTo(old(files), response, maxBytes, faults, names, old(operations), old(drawn), drawn, staged)
      ensures old(events) <= events
      ensures AroundExecution(response, maxBytes, staged, events[|old(events)|..], r)
      ensures files == old(files) || LeftBehind(old(files), files, events[|old(events)|..])
    {
      hide StagesTo;
      var local := Stage(response, maxBytes);
      staged := local;
      if local.Err? { return Err(NotStaged(local.error)), staged; }
      var path := local.value;
      events := events + [Staged(path)];
      var published := Execute(path);
      var removed := RemoveFile(path);
      assert events[|old(events)|..] ==
        [Staged(path), Executed(path, Some(Taken(response.value.body, U64_MAX)), published), Removed(path, removed)];
      assert removed ==> files == old(files);
      assert !removed ==> Removed(path, false) in events[|old(events)|..];
      r := if !published then Err(ExecutionFailed) else if !removed then Err(CleanupFailed) else Ok(());
    }

    /**
     Stages a remote source, publishes the staged file, and removes it. The executor runs
     if and only if staging succeeded, once, on a complete file within the bound, which is
     removed once whatever it answers; success needs both.
     */
    method PublishWithStagedMedia(source: Source, support: Option<nat>, response: Option<Response>) returns (r: Result<(), Problem>)
      requires support.Some? ==> support.value <= U64_MAX
      modifies this
      ensures old(events) <= events
      ensures source.LocalFile? ==>
        && files == old(files) && |events| == |old(events)| + 1
        && var x := events[|old(events)|];
           x.Executed? && x.path == source.path && r == if x.ok then Ok(()) else Err(ExecutionFailed)
      ensures source.RemoteUrl? && support.None? ==> r == Err(Disabled) && events == old(events) && files == old(files)
      ensures source.RemoteUrl? && support.Some? ==> exists staged ::
        && StagesTo(old(files), response, support.value, faults, names, old(operations), old(drawn), drawn, staged)
        && AroundExecution(response, support.value, staged, events[|old(events)|..], r)
      ensures files == old(files) || LeftBehind(old(files), files, events[|old(events)|..])
    {
      hide StagesTo;
      hide AroundExecution;
      hide LeftBehind;
      if source.LocalFile? {
        var published := Execute(source.path);
        return if published then Ok(()) else Err(ExecutionFailed);
      }
      if support.None? { return Err(Disabled); }
      ghost var staged;
      r, staged := PublishRemote(response, support.value);
    }
  }

  /** Staging has one result, and so does the drawing of names. */
  lemma StagingIsSettled(files: map<string, Bytes>, response: Option<Response>, maxBytes: nat, faults: nat -> bool,
                         names: nat -> string, op: nat, from: nat, to: nat, to': nat,
                         r: Result<string, Error>, r': Result<string, Error>)
    requires StagesTo(files, response, maxBytes, faults, names, op, from, to, r)
    requires StagesTo(files, response, maxBytes, faults, names, op, from, to', r')
    ensures to == to' && r == r'
  {
    if Turned(response, maxBytes).None? && !faults(op) {
      var last, last' := names(to - 1), names(to' - 1);
    }
  }

  /**
   Staging succeeds if and only if the response came, its type is allowed, its announced length
   if any and its body are within the bound, one of the next sixteen names is free, and none of
   the operations up to the copy is refused.
   */
  lemma StagingSucceedsIff(files: map<string, Bytes>, response: Option<Response>, maxBytes: nat, faults: nat -> bool,
                           names: nat -> string, op: nat, from: nat, to: nat, r: Result<string, Error>)
    requires StagesTo(files, response, maxBytes, faults, names, op, from, to, r) && maxBytes <= U64_MAX
    ensures r.Ok? <==>
      && response.Some? && response.value.allowedType
      && (response.value.length.Some? ==> response.value.length.value.Ok? && response.value.length.value.value <= maxBytes)
      && (|response.value.body| <= maxBytes || maxBytes == 0xFFFF_FFFF_FFFF_FFFF)
      && !faults(op)
      && exists i :: from <= i < from + 16 && FirstFree(files, names, from, i)
                     && !faults(op + 1 + i - from) && !faults(op + 2 + i - from)
  {
    if Turned(response, maxBytes).None? && !faults(op) {
      if r.Ok? {
        assert FirstFree(files, names, from, to - 1);
      } else {
        var last := names(to - 1);
        assert forall i :: from <= i < from + NAME_ATTEMPTS && FirstFree(files, names, from, i) ==> i == to - 1;
      }
    }
  }

  /** Which error names which cause; a body too large is reported as one byte beyond the bound, an announced length as it is. */
  lemma StagingErrors(files: map<string, Bytes>, response: Option<Response>, maxBytes: nat, faults: nat -> bool,
                      names: nat -> string, op: nat, from: nat, to: nat, r: Result<string, Error>)
    requires StagesTo(files, response, maxBytes, faults, names, op, from, to, r)
    ensures r == Err(Unreachable) <==> response.None?
    ensures r == Err(DisallowedContentType) <==> response.Some? && !response.value.allowedType
    ensures r == Err(InvalidLength) <==>
      response.Some? && response.value.allowedType && response.value.length.Some? && response.value.length.value.Err?
    ensures response.Some? && response.value.allowedType && response.value.length.Some? && response.value.length.value.Ok?
            && response.value.length.value.value > maxBytes ==>
      r == Err(TooLarge(maxBytes, response.value.length.value.value))
    ensures r.Err? && r.error.TooLarge? ==>
      && r.error.limit == maxBytes < r.error.actual
      && ((r.error.actual == maxBytes + 1 && |response.value.body| > maxBytes)
          || response.value.length == Some(Ok(r.error.actual)))
    ensures r == Err(NoUniqueName) ==> !faults(op) && forall i :: from <= i < from + 16 ==> names(i) in files
  {
  }

  predicate FirstFree(files: map<string, Bytes>, names: nat -> string, from: nat, i: nat) {
    names(i) !in files && forall k :: from <= k < i ==> names(k) in files
  }
}
