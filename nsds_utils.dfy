/** The block-folder name parser and the boolean switch parser
    (nsds_lab_to_nwb/utils.py).

    A block folder is named `R<initials><animal>_B<block>`, for instance `RVG02_B09`
    (surgeon initials, animal number, block number); a legacy folder has no initials,
    `R<animal>_B<block>`. */
module NsdsUtils {
  import opened Wrappers
  import opened PyStrings
  import opened PyValues

  /** The three results of `split_block_folder`: the surgeon initials (`None` for a
      legacy block), the animal name and the block name. */
  datatype BlockFolder = BlockFolder(initials: Option<string>, animalName: string, blockName: string)

  /** `block_folder[1:3]`, the would-be surgeon initials. */
  function InitialsOf(f: string): string
  {
    Slice(f, 1, 3)
  }

  /** The legacy naming scheme: the two characters after the first are not letters. */
  predicate IsLegacyName(f: string)
  {
    !IsAlpha(InitialsOf(f))
  }

  /** The two checks `split_block_folder` makes before it looks at the name:
      exactly one `'_'` and no `'/'`. */
  predicate WellFormedFolder(f: string)
  {
    Count(f, '_') == 1 && Count(f, '/') == 0
  }

  /** The animal and block numbers, once the folder has passed the first checks:
      `first_part[1:]` (legacy) or `first_part[3:]`, and `second_part[1:]`. */
  function Ids(f: string): (ids: (string, string))
    requires WellFormedFolder(f)
  {
    SplitOnce(f, '_');
    var parts := Split(f, '_');
    (if IsLegacyName(f) then SliceFrom(parts[0], 1) else SliceFrom(parts[0], 3), SliceFrom(parts[1], 1))
  }

  /** `split_block_folder`.  The re-check of the initials in the non-legacy branch can
      never fail there (the branch is taken only when they are letters), so it has no
      counterpart here. */
  function SplitBlockFolder(f: string): Result<BlockFolder>
  {
    if Count(f, '_') != 1 then Err(ValueError)
    else if Count(f, '/') > 0 then Err(ValueError)
    else
      var (animalId, blockId) := Ids(f);
      if !IsNumeric(animalId) then Err(ValueError)
      else if !IsNumeric(blockId) then Err(ValueError)
      else if IsLegacyName(f) then Ok(BlockFolder(None, "R" + animalId, "B" + blockId))
      else Ok(BlockFolder(Some(InitialsOf(f)), "R" + InitialsOf(f) + animalId, "B" + blockId))
  }

  // ---------------------------------------------------------------------------
  // What `split_block_folder` promises

  /** The folder is rejected with `ValueError` unless it has exactly one `'_'`, no
      `'/'`, and digits only (at least one) after the prefix of each part. */
  lemma SplitBlockFolderErrors(f: string)
    ensures SplitBlockFolder(f).Err? ==> SplitBlockFolder(f).error == ValueError
    ensures SplitBlockFolder(f).Ok? <==>
              WellFormedFolder(f) && IsNumeric(Ids(f).0) && IsNumeric(Ids(f).1)
  {
  }

  /** The initials are `block_folder[1:3]` exactly when those two characters are
      letters, and `None` otherwise. */
  lemma SplitBlockFolderInitials(f: string)
    requires SplitBlockFolder(f).Ok?
    ensures SplitBlockFolder(f).value.initials.None? <==> IsLegacyName(f)
    ensures SplitBlockFolder(f).value.initials.Some? ==>
              SplitBlockFolder(f).value.initials.value == f[1..3] && IsAlpha(f[1..3])
  {
  }

  /** A folder named with the `R` and `B` prefixes is rebuilt from its animal name and
      block name joined by `'_'`. */
  lemma SplitBlockFolderRoundTrip(f: string)
    requires SplitBlockFolder(f).Ok?
    requires f[0] == 'R'
    requires forall i :: 0 <= i < |f| && f[i] == '_' ==> i + 1 < |f| && f[i + 1] == 'B'
    ensures SplitBlockFolder(f).value.animalName + "_" + SplitBlockFolder(f).value.blockName == f
  {
    SplitOnce(f, '_');
    var parts := Split(f, '_');
    var first, second := parts[0], parts[1];
    assert f[|first|] == '_';
    BlockPart(second, f[|first| + 1]);
    if IsLegacyName(f) {
      LegacyAnimalPart(first, f);
    } else {
      AnimalPart(first, f);
    }
  }

  /** The block part is `'B'` followed by the block number. */
  lemma BlockPart(second: string, b: char)
    requires |second| > 0 && second[0] == b && b == 'B'
    ensures "B" + SliceFrom(second, 1) == second
  {
  }

  /** A legacy animal part is `'R'` followed by the animal number. */
  lemma LegacyAnimalPart(first: string, f: string)
    requires |first| > 0 && |first| <= |f| && first[0] == f[0] == 'R'
    ensures "R" + SliceFrom(first, 1) == first
  {
  }

  /** Any other animal part is `'R'`, the initials and the animal number. */
  lemma AnimalPart(first: string, f: string)
    requires 3 <= |first| < |f| && first == f[..|first|] && f[0] == 'R'
    ensures "R" + InitialsOf(f) + SliceFrom(first, 3) == first
  {
    assert InitialsOf(f) == first[1..3];
  }

  /** The legacy folder `R32_B7` passes the first checks, has no initials, and its
      numbers are `32` and `7`. */
  lemma LegacyFolderParts()
    ensures WellFormedFolder("R32_B7") && IsLegacyName("R32_B7")
    ensures Ids("R32_B7") == ("32", "7")
  {
    var f := "R32_B7";
    assert Count(f, '_') == 1 && '/' !in f;
    assert InitialsOf(f) == "32" && !IsLetter(InitialsOf(f)[0]);
    assert f == "R32" + ['_'] + "B7";
    SplitAround("R32", '_', "B7");
  }

  /** A well-formed legacy folder with numeric parts parses to no initials and the
      two numbers with their prefixes. */
  lemma LegacyFolderParsed(f: string)
    requires WellFormedFolder(f) && IsLegacyName(f)
    requires IsNumeric(Ids(f).0) && IsNumeric(Ids(f).1)
    ensures SplitBlockFolder(f) == Ok(BlockFolder(None, "R" + Ids(f).0, "B" + Ids(f).1))
  {
  }

  /** The legacy folder `R32_B7` parses to no initials, `R32` and `B7`. */
  lemma LegacyFolderExample()
    ensures SplitBlockFolder("R32_B7") == Ok(BlockFolder(None, "R32", "B7"))
  {
    LegacyFolderParts();
    assert IsNumeric("32") && IsNumeric("7");
    LegacyFolderParsed("R32_B7");
    LegacyFolderNames();
  }

  lemma LegacyFolderNames()
    ensures "R" + "32" == "R32" && "B" + "7" == "B7"
  {
    assert |"B" + "7"| == 2 && ("B" + "7")[1] == '7';
  }

  // ---------------------------------------------------------------------------
  // `str2bool`

  const TrueWords: seq<string> := ["yes", "true", "t", "y", "1"]
  const FalseWords: seq<string> := ["no", "false", "f", "n", "0"]

  /** `str2bool(v)`: a bool is returned as it is; a string is read case-insensitively;
      any other value has no `lower` method. */
  function Str2Bool(v: Value): Result<bool>
  {
    match v
    case Bool(b) => Ok(b)
    case Str(s) =>
      if Lower(s) in TrueWords then Ok(true)
      else if Lower(s) in FalseWords then Ok(false)
      else Err(ValueError)
    case _ => Err(AttributeError)
  }

  /** A string is true exactly for the yes-words, false exactly for the no-words and
      rejected otherwise, whatever its case; a bool is unchanged; anything else is an
      `AttributeError`. */
  lemma Str2BoolCases(v: Value)
    ensures v.Bool? ==> Str2Bool(v) == Ok(v.b)
    ensures v.Str? ==> (Str2Bool(v) == Ok(true) <==> Lower(v.s) in TrueWords)
    ensures v.Str? ==> (Str2Bool(v) == Ok(false) <==> Lower(v.s) in FalseWords)
    ensures v.Str? ==> (Str2Bool(v) == Err(ValueError) <==> Lower(v.s) !in TrueWords && Lower(v.s) !in FalseWords)
    ensures !v.Bool? && !v.Str? ==> Str2Bool(v) == Err(AttributeError)
  {
    if v.Str? && Lower(v.s) in FalseWords {
      NoWordIsBoth(Lower(v.s));
    }
  }

  /** No word is both a yes-word and a no-word. */
  lemma NoWordIsBoth(w: string)
    ensures !(w in TrueWords && w in FalseWords)
  {
    if w in TrueWords {
      var k :| 0 <= k < |TrueWords| && TrueWords[k] == w;
      assert w[0] in {'y', 't', '1'};
    }
  }

  lemma LowerIdempotent(s: string)
    ensures Lower(Lower(s)) == Lower(s)
  {
  }

  /** Case does not matter. */
  lemma Str2BoolIgnoresCase(s: string)
    ensures Str2Bool(Str(s)) == Str2Bool(Str(Lower(s)))
  {
    LowerIdempotent(s);
  }
}
