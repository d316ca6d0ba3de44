/** get_matchup: filter the events to the date window, build the two
    aggregate records over all players, then four records per requested
    batter, each carrying a CSV download and sanitised markup. */
module Assembly {
  import opened Wrappers
  import opened Params
  import opened Events
  import opened Aggregate
  import opened Sanitize

  /** The `count` tag of a per-batter record. */
  datatype CountKind = Normalized | RawCount

  /** The data frame a record is rendered from. */
  datatype Frame =
    | EmptyFrame                                              // pd.DataFrame()
    | CountFrame(attr: Attribute, counts: map<Key, nat>)      // value_counts()
    | FrequencyFrame(attr: Attribute, freqs: map<Key, real>)  // value_counts(normalize=True)

  /** to_csv and to_html of the data-frame library, given to the model. */
  datatype Renderer = Renderer(csv: Frame -> string, html: Frame -> string)

  datatype Download = Download(filename: string, text: string)

  /** The tags of a record; aggregate records carry no `count` tag. */
  datatype Tags = Tags(attribute: Attribute, count: Option<CountKind>)

  /** A record; `dimension` is the batter, absent on aggregate records. */
  datatype ResultRecord = ResultRecord(dimension: Option<string>, tags: Tags, title: string,
                                       downloadable: seq<Download>, renderable: string)

  datatype MatchupResult = MatchupResult(outputs: seq<ResultRecord>, aggrOutputs: seq<ResultRecord>)

  /** The per-batter variants, in the order they are appended. */
  const Variants: seq<(Attribute, CountKind)> :=
    [(PitchOutcome, Normalized), (PitchOutcome, RawCount), (PitchType, Normalized), (PitchType, RawCount)]

  /** The tags as the string dictionary the records hold. */
  function TagsText(t: Tags): map<string, string>
  {
    var attribute := match t.attribute case PitchOutcome => "pitch-outcome" case PitchType => "pitch-type";
    match t.count
    case None => map["attribute" := attribute]
    case Some(Normalized) => map["attribute" := attribute, "count" := "normalized"]
    case Some(RawCount) => map["attribute" := attribute, "count" := "raw-count"]
  }

  /** A record with one download of the frame as CSV and the frame as sanitised markup. */
  function Record(r: Renderer, dimension: Option<string>, tags: Tags, title: string,
                  filename: string, frame: Frame): ResultRecord
  {
    ResultRecord(dimension, tags, title, [Download(filename, r.csv(frame))], CleanHtml(r.html(frame)))
  }

  // ----- aggregate records -----

  function AggregateTitle(attr: Attribute): string
  {
    match attr
    case PitchOutcome => "Pitch outcome by count for all players"
    case PitchType => "Pitch type by count for all players"
  }

  function AggregateFilename(attr: Attribute): string
  {
    match attr
    case PitchOutcome => "pitch_outcome.csv"
    case PitchType => "pitch_type.csv"
  }

  /** An aggregate record: the normalized table over every event in the window. */
  function AggregateRecord(r: Renderer, window: seq<Event>, attr: Attribute): ResultRecord
  {
    Record(r, None, Tags(attr, None), AggregateTitle(attr), AggregateFilename(attr),
           FrequencyFrame(attr, Frequencies(window, attr)))
  }

  // ----- per-batter records -----

  function MatchupTitle(attr: Attribute, kind: CountKind, pitcher: string, batter: string): string
  {
    var what := match (attr, kind)
      case (PitchOutcome, Normalized) => "Normalized pitch outcome"
      case (PitchOutcome, RawCount) => "Pitch outcome"
      case (PitchType, Normalized) => "Normalized pitch type"
      case (PitchType, RawCount) => "Pitch type";
    what + " by count for " + pitcher + " v. " + batter
  }

  /** The text before the pitcher's name in a per-batter filename. The raw
      pitch-type file has no underscore there. */
  function FilenamePrefix(attr: Attribute, kind: CountKind): string
  {
    match (attr, kind)
    case (PitchOutcome, Normalized) => "normalized_pitch_outcome_"
    case (PitchOutcome, RawCount) => "pitch_outcome_"
    case (PitchType, Normalized) => "normalized_pitch_type_"
    case (PitchType, RawCount) => "pitch_type"
  }

  function MatchupFilename(attr: Attribute, kind: CountKind, pitcher: string, batter: string): string
  {
    FilenamePrefix(attr, kind) + pitcher + "_" + batter + ".csv"
  }

  /** A table of the events. */
  function Table(events: seq<Event>, attr: Attribute, kind: CountKind): Frame
  {
    match kind
    case Normalized => FrequencyFrame(attr, Frequencies(events, attr))
    case RawCount => CountFrame(attr, RawCounts(events, attr))
  }

  /** The frame of one variant for the rows `pdf` of a matchup: empty frames
      when there are no rows, otherwise the table of the rows filtered again
      by pitcher and batter. */
  function MatchupFrame(pdf: seq<Event>, pitcher: string, batter: string, attr: Attribute, kind: CountKind): Frame
  {
    if |pdf| == 0 then EmptyFrame else Table(Select(pdf, Matchup(pitcher, batter)), attr, kind)
  }

  function MatchupRecord(r: Renderer, pitcher: string, batter: string, pdf: seq<Event>,
                         variant: (Attribute, CountKind)): ResultRecord
  {
    var (attr, kind) := variant;
    Record(r, Some(batter), Tags(attr, Some(kind)), MatchupTitle(attr, kind, pitcher, batter),
           MatchupFilename(attr, kind, pitcher, batter), MatchupFrame(pdf, pitcher, batter, attr, kind))
  }

  /** The four records of one batter, in the order they are appended. */
  function BatterRecords(r: Renderer, pitcher: string, batter: string, pdf: seq<Event>): seq<ResultRecord>
  {
    [MatchupRecord(r, pitcher, batter, pdf, Variants[0]), MatchupRecord(r, pitcher, batter, pdf, Variants[1]),
     MatchupRecord(r, pitcher, batter, pdf, Variants[2]), MatchupRecord(r, pitcher, batter, pdf, Variants[3])]
  }

  /** The per-batter records for `batters`, each from the window's pitches
      between the pitcher and that batter. */
  function AllBatterRecords(r: Renderer, window: seq<Event>, pitcher: string, batters: seq<string>): seq<ResultRecord>
  {
    if batters == [] then []
    else
      var last := batters[|batters| - 1];
      AllBatterRecords(r, window, pitcher, batters[..|batters| - 1])
        + BatterRecords(r, pitcher, last, Select(window, Matchup(pitcher, last)))
  }

  /** get_matchup, once the specification is resolved and the events are read:
      the two aggregate records over the date window, then the records of
      every batter in turn. */
  method GetMatchup(spec: Specification, events: seq<Event>, r: Renderer) returns (result: MatchupResult)
    ensures var window := Select(events, DateWindow(spec.startDate, spec.endDate));
      && result.aggrOutputs == [AggregateRecord(r, window, PitchOutcome), AggregateRecord(r, window, PitchType)]
      && result.outputs == AllBatterRecords(r, window, spec.pitcher, spec.batters)
  {
    var sc := Select(events, DateWindow(spec.startDate, spec.endDate));
    var aggr: seq<ResultRecord> := [];
    var outcomeNormalized := FrequencyFrame(PitchOutcome, Frequencies(sc, PitchOutcome));
    var typeNormalized := FrequencyFrame(PitchType, Frequencies(sc, PitchType));
    aggr := aggr + [Record(r, None, Tags(PitchOutcome, None), AggregateTitle(PitchOutcome),
                           AggregateFilename(PitchOutcome), outcomeNormalized)];
    aggr := aggr + [Record(r, None, Tags(PitchType, None), AggregateTitle(PitchType),
                           AggregateFilename(PitchType), typeNormalized)];

    var pitcher, batters := spec.pitcher, spec.batters;
    var outputs: seq<ResultRecord> := [];
    for i := 0 to |batters|
      invariant outputs == AllBatterRecords(r, sc, pitcher, batters[..i])
    {
      var batter := batters[i];
      var pdf := Select(sc, Matchup(pitcher, batter));
      var outcomeNorm, outcomeRaw, typeNorm, typeRaw;
      if |pdf| == 0 {
        outcomeNorm, outcomeRaw, typeNorm, typeRaw := EmptyFrame, EmptyFrame, EmptyFrame, EmptyFrame;
      } else {
        var byOutcome := Select(pdf, Matchup(pitcher, batter));
        outcomeNorm := FrequencyFrame(PitchOutcome, Frequencies(byOutcome, PitchOutcome));
        outcomeRaw := CountFrame(PitchOutcome, RawCounts(byOutcome, PitchOutcome));
        var byType := Select(pdf, Matchup(pitcher, batter));
        typeNorm := FrequencyFrame(PitchType, Frequencies(byType, PitchType));
        typeRaw := CountFrame(PitchType, RawCounts(byType, PitchType));
      }
      assert outcomeNorm == MatchupFrame(pdf, pitcher, batter, PitchOutcome, Normalized);
      assert outcomeRaw == MatchupFrame(pdf, pitcher, batter, PitchOutcome, RawCount);
      assert typeNorm == MatchupFrame(pdf, pitcher, batter, PitchType, Normalized);
      assert typeRaw == MatchupFrame(pdf, pitcher, batter, PitchType, RawCount);
      ghost var before := outputs;
      outputs := outputs + [
        Record(r, Some(batter), Tags(PitchOutcome, Some(Normalized)), MatchupTitle(PitchOutcome, Normalized, pitcher, batter),
               MatchupFilename(PitchOutcome, Normalized, pitcher, batter), outcomeNorm),
        Record(r, Some(batter), Tags(PitchOutcome, Some(RawCount)), MatchupTitle(PitchOutcome, RawCount, pitcher, batter),
               MatchupFilename(PitchOutcome, RawCount, pitcher, batter), outcomeRaw),
        Record(r, Some(batter), Tags(PitchType, Some(Normalized)), MatchupTitle(PitchType, Normalized, pitcher, batter),
               MatchupFilename(PitchType, Normalized, pitcher, batter), typeNorm),
        Record(r, Some(batter), Tags(PitchType, Some(RawCount)), MatchupTitle(PitchType, RawCount, pitcher, batter),
               MatchupFilename(PitchType, RawCount, pitcher, batter), typeRaw)
      ];
      assert outputs == before + BatterRecords(r, pitcher, batter, pdf);
      assert batters[..i + 1][..i] == batters[..i];
      assert AllBatterRecords(r, sc, pitcher, batters[..i + 1])
        == AllBatterRecords(r, sc, pitcher, batters[..i]) + BatterRecords(r, pitcher, batter, pdf);
    }
    assert batters[..|batters|] == batters;
    result := MatchupResult(outputs, aggr);
  }

  lemma BatterRecordsAt(r: Renderer, pitcher: string, batter: string, pdf: seq<Event>, j: int)
    requires 0 <= j < 4
    ensures BatterRecords(r, pitcher, batter, pdf)[j] == MatchupRecord(r, pitcher, batter, pdf, Variants[j])
  {
    if j == 0 {} else if j == 1 {} else if j == 2 {} else {}
  }

  /** Every batter gets four records, at positions 4i .. 4i+3, whatever its
      matchup contains: a batter without pitches does not stop later ones. */
  lemma {:induction false} AllBatterRecordsLayout(r: Renderer, window: seq<Event>, pitcher: string, batters: seq<string>)
    ensures |AllBatterRecords(r, window, pitcher, batters)| == 4 * |batters|
    ensures forall i, j :: 0 <= i < |batters| && 0 <= j < 4 ==>
      AllBatterRecords(r, window, pitcher, batters)[4 * i + j]
        == MatchupRecord(r, pitcher, batters[i], Select(window, Matchup(pitcher, batters[i])), Variants[j])
  {
    if batters != [] {
      var n := |batters| - 1;
      var front := batters[..n];
      AllBatterRecordsLayout(r, window, pitcher, front);
      var xs := AllBatterRecords(r, window, pitcher, front);
      var ys := BatterRecords(r, pitcher, batters[n], Select(window, Matchup(pitcher, batters[n])));
      forall i, j | 0 <= i < |batters| && 0 <= j < 4
        ensures (xs + ys)[4 * i + j]
          == MatchupRecord(r, pitcher, batters[i], Select(window, Matchup(pitcher, batters[i])), Variants[j])
      {
        if i < n {
          assert (xs + ys)[4 * i + j] == xs[4 * i + j];
          assert front[i] == batters[i];
        } else {
          assert i == n && |xs| == 4 * n && |ys| == 4;
          assert 4 * i + j - |xs| == j;
          assert (xs + ys)[4 * i + j] == ys[j];
          BatterRecordsAt(r, pitcher, batters[n], Select(window, Matchup(pitcher, batters[n])), j);
        }
      }
    }
  }

  // ----- what the records contain -----

  /** A matchup without pitches in the window yields four empty frames; the
      table of its (empty) rows would have no rows either. */
  lemma ZeroMatchupsGiveEmptyFrames(window: seq<Event>, pitcher: string, batter: string)
    requires forall e :: e in window ==> !(e.playerName == pitcher && e.batterName == batter)
    ensures forall j :: 0 <= j < 4 ==>
      MatchupFrame(Select(window, Matchup(pitcher, batter)), pitcher, batter, Variants[j].0, Variants[j].1) == EmptyFrame
    ensures forall attr :: RawCounts(Select(window, Matchup(pitcher, batter)), attr) == map[]
  {
    SelectEmpty(window, Matchup(pitcher, batter));
    forall attr ensures RawCounts(Select(window, Matchup(pitcher, batter)), attr) == map[] {
      EmptyTables(Select(window, Matchup(pitcher, batter)), attr);
    }
  }

  /** With pitches, the second filter changes nothing: each frame is the table
      of exactly the window's pitches between this pitcher and batter, the raw
      count of a key is the number of those pitches with that key, and the
      normalized values of each present count state add up to one. */
  lemma MatchupFrameIsTableOfMatchup(window: seq<Event>, pitcher: string, batter: string,
                                     attr: Attribute, kind: CountKind, k: Key)
    requires Select(window, Matchup(pitcher, batter)) != []
    ensures var pdf := Select(window, Matchup(pitcher, batter));
      && MatchupFrame(pdf, pitcher, batter, attr, kind) == Table(pdf, attr, kind)
      && (k in RawCounts(pdf, attr) ==> RawCounts(pdf, attr)[k] == multiset(KeySeq(pdf, attr))[k])
      && (k in Frequencies(pdf, attr) ==>
            && (forall c :: c in GroupCategories(pdf, attr, k.0, k.1) ==> (k.0, k.1, c) in Frequencies(pdf, attr))
            && SumFrequencies(Frequencies(pdf, attr), k.0, k.1, GroupCategories(pdf, attr, k.0, k.1)) == 1.0)
  {
    var pdf := Select(window, Matchup(pitcher, batter));
    SelectIdempotent(window, Matchup(pitcher, batter));
    CountIsKeyMultiplicity(pdf, attr, k);
    if k in Frequencies(pdf, attr) {
      NormalizedIsRawOverGroup(pdf, attr, k);
      FrequenciesSumToOne(pdf, attr, k.0, k.1);
    }
  }

  /** The tags and dimension each record carries, as the source's strings:
      aggregate records name only their attribute; the records of the i-th
      batter carry that batter and the four attribute/count pairs in order. */
  lemma RecordTags(r: Renderer, window: seq<Event>, pitcher: string, batters: seq<string>, i: int)
    requires 0 <= i < |batters|
    ensures TagsText(AggregateRecord(r, window, PitchOutcome).tags) == map["attribute" := "pitch-outcome"]
    ensures TagsText(AggregateRecord(r, window, PitchType).tags) == map["attribute" := "pitch-type"]
    ensures var recs := AllBatterRecords(r, window, pitcher, batters);
      && |recs| == 4 * |batters|
      && recs[4 * i].dimension == recs[4 * i + 1].dimension == Some(batters[i])
      && recs[4 * i + 2].dimension == recs[4 * i + 3].dimension == Some(batters[i])
      && TagsText(recs[4 * i].tags) == map["attribute" := "pitch-outcome", "count" := "normalized"]
      && TagsText(recs[4 * i + 1].tags) == map["attribute" := "pitch-outcome", "count" := "raw-count"]
      && TagsText(recs[4 * i + 2].tags) == map["attribute" := "pitch-type", "count" := "normalized"]
      && TagsText(recs[4 * i + 3].tags) == map["attribute" := "pitch-type", "count" := "raw-count"]
  {
    AllBatterRecordsLayout(r, window, pitcher, batters);
    var recs := AllBatterRecords(r, window, pitcher, batters);
    var pdf := Select(window, Matchup(pitcher, batters[i]));
    assert recs[4 * i] == MatchupRecord(r, pitcher, batters[i], pdf, Variants[0]);
    assert recs[4 * i + 1] == MatchupRecord(r, pitcher, batters[i], pdf, Variants[1]);
    assert recs[4 * i + 2] == MatchupRecord(r, pitcher, batters[i], pdf, Variants[2]);
    assert recs[4 * i + 3] == MatchupRecord(r, pitcher, batters[i], pdf, Variants[3]);
  }

  lemma PrefixesDiffer(a: string, b: string, x: string, y: string, i: nat)
    requires i < |a| && i < |b| && a[i] != b[i]
    ensures a + x != b + y
  {
    assert (a + x)[i] == a[i];
    assert (b + y)[i] == b[i];
  }

  /** Within one result, a per-batter filename determines its variant and its
      batter: distinct batters never overwrite each other's downloads. */
  lemma MatchupFilenameInjective(pitcher: string, v: (Attribute, CountKind), b: string,
                                 w: (Attribute, CountKind), c: string)
    ensures MatchupFilename(v.0, v.1, pitcher, b) == MatchupFilename(w.0, w.1, pitcher, c) <==> v == w && b == c
  {
    var pv, pw := FilenamePrefix(v.0, v.1), FilenamePrefix(w.0, w.1);
    var rest := pitcher + "_";
    assert MatchupFilename(v.0, v.1, pitcher, b) == pv + (rest + b + ".csv");
    assert MatchupFilename(w.0, w.1, pitcher, c) == pw + (rest + c + ".csv");
    if v != w {
      var i: nat := if v.1 != w.1 then 0 else if v.1 == Normalized then 17 else 6;
      PrefixesDiffer(pv, pw, rest + b + ".csv", rest + c + ".csv", i);
    } else if b != c {
      var head := pv + rest;
      var x, y := b + ".csv", c + ".csv";
      assert MatchupFilename(v.0, v.1, pitcher, b) == head + x;
      assert MatchupFilename(w.0, w.1, pitcher, c) == head + y;
      assert x[..|b|] == b && y[..|c|] == c;
      assert (head + x)[|head|..] == x && (head + y)[|head|..] == y;
    }
  }

  /** No per-batter filename is one of the two aggregate filenames. */
  lemma MatchupFilenameNotAggregate(attr: Attribute, kind: CountKind, pitcher: string, batter: string, other: Attribute)
    ensures MatchupFilename(attr, kind, pitcher, batter) != AggregateFilename(other)
  {
    var p := FilenamePrefix(attr, kind);
    var rest := pitcher + "_" + batter + ".csv";
    var a := AggregateFilename(other);
    assert MatchupFilename(attr, kind, pitcher, batter) == p + rest;
    assert a == a + "";
    if kind == Normalized {
      PrefixesDiffer(p, a, rest, "", 0);
    } else if attr != other {
      PrefixesDiffer(p, a, rest, "", 6);
    } else if attr == PitchOutcome {
      PrefixesDiffer(p, a, rest, "", 13);
    } else {
      assert |p + rest| > |a|;
    }
  }
}
