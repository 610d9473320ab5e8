/** `validate_kwargs`: required and optional names given in API (camelCase)
    format are accepted under that spelling or under their SDK (underscore)
    spelling, and come out in API format; other keyword arguments pass through. */
module Normalizer {
  import opened Types
  import opened Naming

  /** Every declared name can be converted (`camel2under` reads its last character). */
  predicate Named(names: set<string>)
  {
    forall w | w in names :: |w| > 0
  }

  /** The names `required` and `optional` declare together. */
  function Declared(required: seq<string>, optional: seq<string>): set<string>
  {
    set w | w in required + optional
  }

  /** The value declared name `w` receives: its SDK spelling first, then its API
      spelling; `Null` when neither is set to something other than `None`. */
  function Lookup(kw: Kwargs, w: string): (v: Value)
    requires |w| > 0
    ensures v != Null <==> HasValue(kw, CamelToUnder(w)) || HasValue(kw, w)
  {
    var v := Get(kw, CamelToUnder(w));
    if v != Null then v else Get(kw, w)
  }

  /** Keys popped while the names in `names` are processed: the SDK spelling
      always, the API spelling only when the SDK spelling gave nothing. */
  function Popped(names: set<string>, kw: Kwargs): set<string>
    requires Named(names)
  {
    (set w | w in names :: CamelToUnder(w)) + (set w | w in names && Get(kw, CamelToUnder(w)) == Null)
  }

  /** The entries `result_kwargs` receives from the declared names. */
  function Picked(names: set<string>, kw: Kwargs): Kwargs
    requires Named(names)
  {
    map w | w in names && Lookup(kw, w) != Null :: Lookup(kw, w)
  }

  /** What is left of `kwargs` once the declared names have been popped. */
  function Leftover(names: set<string>, kw: Kwargs): Kwargs
    requires Named(names)
  {
    map k | k in kw && k !in Popped(names, kw) :: kw[k]
  }

  /** `result_kwargs.update(kwargs)`: the leftovers overwrite the picked values. */
  function Normalized(names: set<string>, kw: Kwargs): Kwargs
    requires Named(names)
  {
    Picked(names, kw) + Leftover(names, kw)
  }

  /** Two declared names share no spelling. */
  predicate Apart(a: string, b: string)
    requires |a| > 0 && |b| > 0
  {
    a != b ==> CamelToUnder(a) != CamelToUnder(b) && a != CamelToUnder(b)
  }

  predicate Separate(names: set<string>)
  {
    Named(names) && forall a, b | a in names && b in names :: Apart(a, b)
  }

  /** The declarations the normalizer handles independently of dictionary
      order: spellings do not collide, and no name is both required and optional. */
  predicate WellFormed(required: seq<string>, optional: seq<string>)
  {
    Separate(Declared(required, optional)) && forall w | w in required :: w !in optional
  }

  /** Required names given under neither spelling (or only as `None`). */
  function Missing(required: seq<string>, kw: Kwargs): set<string>
    requires forall w | w in required :: |w| > 0
  {
    set w | w in required && Lookup(kw, w) == Null
  }

  /** The first missing required name, in declaration order. */
  function FirstMissing(required: seq<string>, kw: Kwargs): (m: Option<string>)
    requires forall w | w in required :: |w| > 0
    ensures m.None? <==> Missing(required, kw) == {}
    ensures m.Some? ==> m.value in Missing(required, kw)
  {
    if required == [] then None
    else if Lookup(kw, required[0]) == Null then
      assert required[0] in Missing(required, kw);
      Some(required[0])
    else
      var m := FirstMissing(required[1..], kw);
      assert forall w | w in required :: w == required[0] || w in required[1..];
      assert Missing(required, kw) == Missing(required[1..], kw);
      m
  }

  /** The outcome of `validate_kwargs(required, optional, **kw)`, reporting the
      first missing name in declaration order where the source reports whichever
      its dictionary yields first. */
  function Validated(required: seq<string>, optional: seq<string>, kw: Kwargs): (r: Result<Kwargs>)
    requires Named(Declared(required, optional))
    ensures r.Err? <==> Missing(required, kw) != {}
    ensures r.Err? ==> exists w :: w in Missing(required, kw) && r.error == MonitisError(CamelToUnder(w) + " is required")
  {
    assert forall w | w in required :: w in required + optional;
    match FirstMissing(required, kw)
    case Some(w) => Err(MonitisError(CamelToUnder(w) + " is required"))
    case None => Ok(Normalized(Declared(required, optional), kw))
  }

  /** Lines 84-96: `{camel2under(word): word for word in words}`. */
  method ToDict(words: seq<string>) returns (d: map<string, string>)
    requires forall w | w in words :: |w| > 0
    ensures forall w | w in words :: CamelToUnder(w) in d
    ensures forall lc | lc in d :: d[lc] in words && CamelToUnder(d[lc]) == lc
  {
    d := map[];
    for i := 0 to |words|
      invariant forall w | w in words[..i] :: CamelToUnder(w) in d
      invariant forall lc | lc in d :: d[lc] in words[..i] && CamelToUnder(d[lc]) == lc
    {
      assert words[..i + 1] == words[..i] + [words[i]];
      var lc := Camel2Under(words[i]);
      d := d[lc := words[i]];
    }
    assert words[..|words|] == words;
  }

  /** Keys popped for one more declared name `w`. */
  lemma PoppedStep(done: set<string>, kw: Kwargs, w: string)
    requires Named(done) && |w| > 0
    ensures Popped(done + {w}, kw) ==
      Popped(done, kw) + {CamelToUnder(w)} + (if Get(kw, CamelToUnder(w)) == Null then {w} else {})
  {
    var sdk := set b | b in done + {w} :: CamelToUnder(b);
    assert sdk == (set b | b in done :: CamelToUnder(b)) + {CamelToUnder(w)};
    var api := set b | b in done + {w} && Get(kw, CamelToUnder(b)) == Null;
    assert api == (set b | b in done && Get(kw, CamelToUnder(b)) == Null) + (if Get(kw, CamelToUnder(w)) == Null then {w} else {});
  }

  /** Before `w` is processed, none of its spellings has been popped. */
  lemma NotYetPopped(all: set<string>, done: set<string>, kw: Kwargs, w: string)
    requires Separate(all) && done <= all && w in all && w !in done
    ensures CamelToUnder(w) !in Popped(done, kw) && w !in Popped(done, kw)
  {
    var lc := CamelToUnder(w);
    forall b | b in done
      ensures CamelToUnder(b) != lc && b != lc && CamelToUnder(b) != w
    {
      assert Apart(b, w) && Apart(w, b);
    }
  }

  /** `value = kwargs.pop(lc, None)`, then `kwargs.pop(cc, None)` when that
      gave `None` (lines 100-102 and 109-111). */
  method PopEither(kw: Kwargs, lc: string, cc: string) returns (value: Value, rest: Kwargs)
    ensures value == if Get(kw, lc) != Null then Get(kw, lc) else Get(kw - {lc}, cc)
    ensures rest == if Get(kw, lc) != Null then kw - {lc} else kw - {lc} - {cc}
  {
    value := Get(kw, lc);
    rest := kw - {lc};
    if value == Null {
      value := Get(rest, cc);
      rest := rest - {cc};
    }
  }

  /** Processing one more declared name `w` on what is left of the caller's
      keyword arguments yields its `Lookup` value, and leaves the leftovers and
      the picked entries of the enlarged set of processed names. */
  lemma Step(all: set<string>, done: set<string>, kw: Kwargs, w: string)
    requires Separate(all) && done <= all && w in all && w !in done
    ensures var left, lc := Leftover(done, kw), CamelToUnder(w);
      && (if Get(left, lc) != Null then Get(left, lc) else Get(left - {lc}, w)) == Lookup(kw, w)
      && (if Get(left, lc) != Null then left - {lc} else left - {lc} - {w}) == Leftover(done + {w}, kw)
    ensures Picked(done + {w}, kw) ==
      if Lookup(kw, w) == Null then Picked(done, kw) else Picked(done, kw)[w := Lookup(kw, w)]
  {
    NotYetPopped(all, done, kw, w);
    PoppedStep(done, kw, w);
    StepValue(done, kw, w);
    LeftoverGrows(done, kw, w);
    StepPicked(done, kw, w);
  }

  /** The value popped for one more name, given that neither spelling of it
      had been popped: what `Lookup` finds in the caller's arguments. */
  lemma StepValue(done: set<string>, kw: Kwargs, w: string)
    requires Named(done) && |w| > 0
    requires CamelToUnder(w) !in Popped(done, kw) && w !in Popped(done, kw)
    ensures var left, lc := Leftover(done, kw), CamelToUnder(w);
      && Get(left, lc) == Get(kw, lc)
      && (if Get(left, lc) != Null then Get(left, lc) else Get(left - {lc}, w)) == Lookup(kw, w)
  {
    var left, lc := Leftover(done, kw), CamelToUnder(w);
    assert Get(left, lc) == Get(kw, lc);
    if Get(kw, lc) == Null && w != lc {
      assert Get(left - {lc}, w) == Get(kw, w);
    }
  }

  /** The leftovers after one more name: its SDK spelling is gone, and its API
      spelling too when the SDK spelling gave nothing. */
  lemma LeftoverGrows(done: set<string>, kw: Kwargs, w: string)
    requires Named(done) && |w| > 0
    requires var lc := CamelToUnder(w);
      Popped(done + {w}, kw) == Popped(done, kw) + {lc} + (if Get(kw, lc) == Null then {w} else {})
    ensures var lc := CamelToUnder(w);
      Leftover(done + {w}, kw) == if Get(kw, lc) != Null then Leftover(done, kw) - {lc} else Leftover(done, kw) - {lc} - {w}
  {
  }

  /** The picked entries after one more name `w` not processed before. */
  lemma StepPicked(done: set<string>, kw: Kwargs, w: string)
    requires Named(done) && |w| > 0 && w !in done
    ensures Picked(done + {w}, kw) ==
      if Lookup(kw, w) == Null then Picked(done, kw) else Picked(done, kw)[w := Lookup(kw, w)]
  {
  }

  /** Names in `names` are processed exactly when their SDK spelling has left `todo`. */
  predicate Tracks(names: seq<string>, done: set<string>, todo: set<string>)
    requires forall w | w in names :: |w| > 0
  {
    forall w | w in names :: w in done <==> CamelToUnder(w) !in todo
  }

  /** One round of either popping loop: the name the round's key stands for is
      not processed yet, and processing it keeps `Tracks` and takes the `Step`. */
  lemma Advance(all: set<string>, names: seq<string>, temp: map<string, string>,
                done: set<string>, todo: set<string>, kwargs: Kwargs, lc: string)
    requires Separate(all) && (forall w | w in names :: w in all) && done <= all
    requires forall k | k in temp :: temp[k] in names && CamelToUnder(temp[k]) == k
    requires lc in todo && todo <= temp.Keys && Tracks(names, done, todo)
    ensures temp[lc] !in done && Tracks(names, done + {temp[lc]}, todo - {lc})
    ensures var left, w := Leftover(done, kwargs), temp[lc];
      && (if Get(left, lc) != Null then Get(left, lc) else Get(left - {lc}, w)) == Lookup(kwargs, w)
      && (if Get(left, lc) != Null then left - {lc} else left - {lc} - {w}) == Leftover(done + {w}, kwargs)
    ensures Picked(done + {temp[lc]}, kwargs) ==
      if Lookup(kwargs, temp[lc]) == Null then Picked(done, kwargs) else Picked(done, kwargs)[temp[lc] := Lookup(kwargs, temp[lc])]
  {
    var cc := temp[lc];
    forall w | w in names && CamelToUnder(w) == lc ensures w == cc {
      assert Apart(w, cc);
    }
    Step(all, done, kwargs, cc);
  }

  /** Lines 99-106: pop each required name in turn (in the dictionary's
      unspecified order), raising for the first one found missing. Under `wf`
      (spellings apart) the outcome is the same whatever that order is. */
  method PopRequired(ghost wf: bool, ghost all: set<string>, required: seq<string>,
                     temp: map<string, string>, kwargs: Kwargs)
      returns (err: Option<Error>, result: Kwargs, kw: Kwargs)
    requires Named(all) && forall w | w in required :: w in all
    requires forall w | w in required :: CamelToUnder(w) in temp
    requires forall lc | lc in temp :: temp[lc] in required && CamelToUnder(temp[lc]) == lc
    requires wf ==> Separate(all)
    ensures wf ==> (err.Some? <==> Missing(required, kwargs) != {})
    ensures wf && err.Some? ==>
      exists w :: w in Missing(required, kwargs) && err.value == MonitisError(CamelToUnder(w) + " is required")
    ensures wf && err.None? ==>
      kw == Leftover((set w | w in required), kwargs) && result == Picked((set w | w in required), kwargs)
  {
    kw := kwargs;
    result := map[];
    ghost var done: set<string> := {};
    var todo := temp.Keys;
    while todo != {}
      invariant todo <= temp.Keys
      invariant forall w | w in done :: w in required
      invariant wf ==> Tracks(required, done, todo)
      invariant wf ==> kw == Leftover(done, kwargs) && result == Picked(done, kwargs)
      invariant wf ==> forall w | w in done :: Lookup(kwargs, w) != Null
      decreases todo
    {
      var lc :| lc in todo;
      var cc := temp[lc];
      if wf {
        Advance(all, required, temp, done, todo, kwargs, lc);
      }
      var value;
      value, kw := PopEither(kw, lc, cc);
      if value == Null {
        assert wf ==> cc in Missing(required, kwargs);
        return Some(MonitisError(lc + " is required")), result, kw;
      }
      result := result[cc := value];
      todo := todo - {lc};
      done := done + {cc};
    }
    err := None;
    assert wf ==> done == set w | w in required;
  }

  /** Lines 108-113: pop each optional name in turn, keeping the ones given;
      `kw` and `result` continue from the names in `before`. */
  method PopOptional(ghost wf: bool, ghost all: set<string>, ghost before: set<string>, optional: seq<string>,
                     temp: map<string, string>, kwargs: Kwargs, kw0: Kwargs, result0: Kwargs)
      returns (result: Kwargs, kw: Kwargs)
    requires Named(all) && before <= all && forall w | w in optional :: w in all
    requires forall w | w in optional :: CamelToUnder(w) in temp
    requires forall lc | lc in temp :: temp[lc] in optional && CamelToUnder(temp[lc]) == lc
    requires wf ==> Separate(all) && forall w | w in optional :: w !in before
    requires wf ==> kw0 == Leftover(before, kwargs) && result0 == Picked(before, kwargs)
    ensures wf ==>
      var names := before + set w | w in optional;
      kw == Leftover(names, kwargs) && result == Picked(names, kwargs)
  {
    kw, result := kw0, result0;
    ghost var done: set<string> := before;
    var todo := temp.Keys;
    while todo != {}
      invariant todo <= temp.Keys
      invariant forall w | w in done :: w in before || w in optional
      invariant before <= done
      invariant wf ==> Tracks(optional, done, todo)
      invariant wf ==> kw == Leftover(done, kwargs) && result == Picked(done, kwargs)
      decreases todo
    {
      var lc :| lc in todo;
      var cc := temp[lc];
      if wf {
        Advance(all, optional, temp, done, todo, kwargs, lc);
      }
      var value;
      value, kw := PopEither(kw, lc, cc);
      if value != Null {
        result := result[cc := value];
      }
      todo := todo - {lc};
      done := done + {cc};
    }
    assert wf ==> done == before + set w | w in optional;
  }

  /** `validate_kwargs` (monitis/api.py:71-117), for lists of API-format names:
      build the two dictionaries, pop the required then the optional names from
      the caller's `kwargs`, and merge what is left over the result. */
  method ValidateKwargs(required: seq<string>, optional: seq<string>, kwargs: Kwargs) returns (r: Result<Kwargs>)
    requires Named(Declared(required, optional))
    ensures WellFormed(required, optional) ==> (r.Err? <==> Missing(required, kwargs) != {})
    ensures WellFormed(required, optional) && r.Err? ==>
      exists w :: w in Missing(required, kwargs) && r.error == MonitisError(CamelToUnder(w) + " is required")
    ensures WellFormed(required, optional) && r.Ok? ==>
      r == Validated(required, optional, kwargs)
  {
    ghost var wf := WellFormed(required, optional);
    ghost var all := Declared(required, optional);
    assert forall w | w in required :: w in required + optional;
    assert forall w | w in optional :: w in required + optional;
    var tempRequired := ToDict(required);
    var tempOptional := ToDict(optional);

    var err, result, kw := PopRequired(wf, all, required, tempRequired, kwargs);
    if err.Some? {
      return Err(err.value);
    }
    ghost var before := set w | w in required;
    result, kw := PopOptional(wf, all, before, optional, tempOptional, kwargs, kw, result);
    result := result + kw;
    r := Ok(result);
    assert wf ==> before + (set w | w in optional) == all;
  }

  /** A declared name given under either spelling comes out under its API
      spelling, holding the API-spelled value whenever that key was passed
      (line 116 overwrites the value popped from the SDK spelling). */
  lemma ApiSpellingWins(names: set<string>, kw: Kwargs, w: string)
    requires Separate(names) && w in names && Lookup(kw, w) != Null
    ensures w in Normalized(names, kw)
    ensures Normalized(names, kw)[w] == if w in kw then kw[w] else kw[CamelToUnder(w)]
  {
    var lc := CamelToUnder(w);
    assert w in Picked(names, kw);
    if w in kw && Get(kw, lc) != Null && lc != w {
      forall b | b in names ensures CamelToUnder(b) != w {
        assert Apart(b, w);
      }
      assert w !in Popped(names, kw);
      assert w in Leftover(names, kw);
    } else if w in kw {
      assert w in Popped(names, kw);
    }
  }

  /** A declared name given under neither spelling (or only as `None`) is
      left out of the result under both spellings. */
  lemma MissingOmitted(names: set<string>, kw: Kwargs, w: string)
    requires Separate(names) && w in names && Lookup(kw, w) == Null
    ensures w !in Normalized(names, kw) && CamelToUnder(w) !in Normalized(names, kw)
  {
    var lc := CamelToUnder(w);
    assert w in Popped(names, kw) && lc in Popped(names, kw);
    assert w !in Picked(names, kw);
    forall b | b in names && b != w ensures b != lc {
      assert Apart(b, w);
    }
    assert lc !in Picked(names, kw);
  }

  /** No SDK spelling of a declared name survives unless it is the API
      spelling itself. */
  lemma SdkSpellingGone(names: set<string>, kw: Kwargs, w: string)
    requires Separate(names) && w in names && CamelToUnder(w) != w
    ensures CamelToUnder(w) !in Normalized(names, kw)
  {
    var lc := CamelToUnder(w);
    assert lc in Popped(names, kw);
  }

  /** Keyword arguments that spell no declared name are copied unchanged, and
      nothing else appears in the result. */
  lemma UndeclaredKept(names: set<string>, kw: Kwargs, k: string)
    requires Named(names) && k !in names && forall w | w in names :: CamelToUnder(w) != k
    ensures (k in Normalized(names, kw) <==> k in kw)
    ensures k in kw ==> Normalized(names, kw)[k] == kw[k]
  {
    assert k !in Popped(names, kw);
  }

  /** Every key of the result is a declared name or a key the caller passed. */
  lemma NormalizedKeys(names: set<string>, kw: Kwargs, k: string)
    requires Named(names)
    ensures k in Normalized(names, kw) ==> k in names || k in kw
  {
  }

  /** The value a declared name given under some spelling ends up with: the
      API spelling's when that key was passed, else the SDK spelling's. */
  function Chosen(kw: Kwargs, w: string): Value
    requires |w| > 0
  {
    if w in kw then kw[w] else Get(kw, CamelToUnder(w))
  }

  /** What the result holds for one declared name, in one place. */
  lemma DeclaredOutcome(names: set<string>, kw: Kwargs, w: string)
    requires Separate(names) && w in names
    ensures w in Normalized(names, kw) <==> Lookup(kw, w) != Null
    ensures w in Normalized(names, kw) ==> Normalized(names, kw)[w] == Chosen(kw, w)
    ensures CamelToUnder(w) != w ==> CamelToUnder(w) !in Normalized(names, kw)
  {
    if Lookup(kw, w) != Null {
      ApiSpellingWins(names, kw, w);
    } else {
      MissingOmitted(names, kw, w);
    }
    if CamelToUnder(w) != w {
      SdkSpellingGone(names, kw, w);
    }
  }
}
