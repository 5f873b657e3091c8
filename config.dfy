/**
 * The one computed setting: the list of allowed cross-origin callers, parsed
 * from a comma-separated string. Everything else in the settings object is
 * loaded from the environment and only passed through.
 */
module Config {
  import opened Text

  /** What `allowed_origins` holds when the environment does not set it. */
  const DefaultAllowedOrigins: string := "http://localhost:5173,http://localhost:3000"

  /** A non-empty string with no surrounding whitespace. */
  predicate Trimmed(o: string)
  {
    o != [] && o[0] !in Whitespace && o[|o| - 1] !in Whitespace
  }

  /** Every piece, stripped: position by position, each result meets the
      description of `str.strip()` for its piece. */
  function StripEach(pieces: seq<string>): (r: seq<string>)
    ensures |r| == |pieces|
    ensures forall k :: 0 <= k < |r| ==> IsStripOf(r[k], pieces[k], Whitespace)
  {
    var r := seq(|pieces|, k requires 0 <= k < |pieces| => Strip(pieces[k]));
    assert forall k :: 0 <= k < |r| ==> IsStripOf(r[k], pieces[k], Whitespace) by {
      forall k | 0 <= k < |r| ensures IsStripOf(r[k], pieces[k], Whitespace) {
        StripSetSpec(pieces[k], Whitespace);
      }
    }
    r
  }

  /** The pieces that are not empty, in their order. */
  function NonEmpty(pieces: seq<string>): (r: seq<string>)
    ensures |r| <= |pieces|
    ensures forall o :: o in r ==> o in pieces && o != []
  {
    if pieces == [] then []
    else (if pieces[0] == [] then [] else [pieces[0]]) + NonEmpty(pieces[1..])
  }

  datatype Settings = Settings(allowedOrigins: string)
  {
    /** The allowed origins, in the order they are written: non-empty, free
        of surrounding whitespace and of commas, at most one per comma-separated
        segment. */
    function CorsOrigins(): (r: seq<string>)
      ensures forall o :: o in r ==> Trimmed(o)
      ensures forall o :: o in r ==> ',' !in o
      ensures |r| <= multiset(allowedOrigins)[','] + 1
    {
      var pieces := Split(allowedOrigins, ',');
      SplitPiecesFree(allowedOrigins, ',');
      SplitCount(allowedOrigins, ',');
      StripEachTrimmed(pieces, ',');
      NonEmpty(StripEach(pieces))
    }
  }

  /** A stripped piece is trimmed unless empty, and holds no character its
      source lacked. */
  lemma StripEachTrimmed(pieces: seq<string>, c: char)
    requires forall p :: p in pieces ==> c !in p
    ensures forall o :: o in StripEach(pieces) && o != [] ==> Trimmed(o) && c !in o
  {
    forall o | o in StripEach(pieces) && o != [] ensures Trimmed(o) && c !in o {
      var k :| 0 <= k < |pieces| && o == Strip(pieces[k]);
      assert pieces[k] in pieces;
      StripSetSpec(pieces[k], Whitespace);
      StripSetChars(pieces[k], Whitespace);
    }
  }

  /** Each origin is already in stripped form: stripping it again changes nothing. */
  lemma CorsOriginsStripped(settings: Settings)
    ensures forall o :: o in settings.CorsOrigins() ==> Strip(o) == o
  {
    forall o | o in settings.CorsOrigins() ensures Strip(o) == o {
      StripSetNoop(o, Whitespace);
    }
  }

  /** Stripping works run by run. */
  lemma StripEachAppend(p: seq<string>, q: seq<string>)
    ensures StripEach(p + q) == StripEach(p) + StripEach(q)
  {
    var l, r := StripEach(p + q), StripEach(p) + StripEach(q);
    forall k | 0 <= k < |l| ensures l[k] == r[k] {
      if k < |p| {
        assert (p + q)[k] == p[k];
      } else {
        assert (p + q)[k] == q[k - |p|];
      }
    }
  }

  /** Filtering works run by run. */
  lemma {:induction false} NonEmptyAppend(p: seq<string>, q: seq<string>)
    ensures NonEmpty(p + q) == NonEmpty(p) + NonEmpty(q)
  {
    if p == [] {
      assert p + q == q;
    } else {
      assert (p + q)[0] == p[0] && (p + q)[1..] == p[1..] + q;
      NonEmptyAppend(p[1..], q);
    }
  }

  /** Origins written before a comma come first, those after it follow:
      parsing distributes over the comma. */
  lemma CorsOriginsAppend(a: string, b: string)
    ensures Settings(a + [','] + b).CorsOrigins() == Settings(a).CorsOrigins() + Settings(b).CorsOrigins()
  {
    var p, q := Split(a, ','), Split(b, ',');
    SplitAppend(a, b, ',');
    StripEachAppend(p, q);
    NonEmptyAppend(StripEach(p), StripEach(q));
  }

  /** A segment without a comma yields its stripped text, or nothing when that
      is empty. With CorsOriginsAppend this determines the whole parse. */
  lemma CorsOriginsSegment(s: string)
    requires ',' !in s
    ensures Settings(s).CorsOrigins() == if Strip(s) == [] then [] else [Strip(s)]
  {
    SplitFree(s, ',');
    assert StripEach([s]) == [Strip(s)];
    assert NonEmpty([Strip(s)]) == if Strip(s) == [] then [] else [Strip(s)];
  }

  /** An origin as it can be written alone: trimmed and comma-free. */
  predicate SingleOrigin(s: string)
  {
    Trimmed(s) && ',' !in s
  }

  /** A single origin written without a comma or surrounding whitespace
      parses to itself. */
  lemma CorsOriginsSingle(s: string)
    requires SingleOrigin(s)
    ensures Settings(s).CorsOrigins() == [s]
  {
    StripSetNoop(s, Whitespace);
    CorsOriginsSegment(s);
  }

  /** Two such origins joined by one comma parse to the two of them, in order. */
  lemma CorsOriginsPair(a: string, b: string)
    requires SingleOrigin(a) && SingleOrigin(b)
    ensures Settings(a + [','] + b).CorsOrigins() == [a, b]
  {
    CorsOriginsAppend(a, b);
    CorsOriginsSingle(a);
    CorsOriginsSingle(b);
  }

  /** The two origins of the default. */
  const ViteOrigin: string := "http://localhost:5173"
  const ReactOrigin: string := "http://localhost:3000"

  /** Both default origins can be written alone. */
  lemma DefaultOriginsSingle()
    ensures SingleOrigin(ViteOrigin) && SingleOrigin(ReactOrigin)
  {
    assert ViteOrigin[0] == 'h' && ViteOrigin[|ViteOrigin| - 1] == '3';
    assert ReactOrigin[0] == 'h' && ReactOrigin[|ReactOrigin| - 1] == '0';
  }

  /** The default is the two origins joined by one comma. */
  lemma DefaultIsTwoOrigins()
    ensures DefaultAllowedOrigins == ViteOrigin + [','] + ReactOrigin
  {
  }

  /** The default yields the two local development origins. */
  lemma DefaultCorsOrigins()
    ensures Settings(DefaultAllowedOrigins).CorsOrigins() == ["http://localhost:5173", "http://localhost:3000"]
  {
    DefaultIsTwoOrigins();
    DefaultOriginsSingle();
    CorsOriginsPair(ViteOrigin, ReactOrigin);
  }
}
