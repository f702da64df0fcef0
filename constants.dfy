/** The endpoints the keep-alive calls (app/.../core/Constants.kt). */
module Constants {
  import opened Text

  const JwtExtendUrl := "https://www.eesti.ee/timur/jwt/extend-jwt-session"

  /** The usage query's fixed part, up to the query string. */
  const UsagesPrefix := "https://www.eesti.ee/andmejalgija/api/v1/usages?"
  const ParameterName := "dataSystemCodes="
  const ParameterSeparator := '&'

  /** The state registers whose data use the tracker is asked about, in query order. */
  const DataSystems: seq<string> := [
    "digiregistratuur",
    "elamislubade_ja_toolubade_register",
    "kinnistusraamat",
    "kutseregister",
    "maksukohustuslaste_register",
    "infosusteem_polis",
    "politsei_taktikalise_juhtimise_andmekogu",
    "pollumajandusloomade_register",
    "pollumajandustoetuste_ja_pollumassiivide_register",
    "rahvastikuregister",
    "retseptikeskus",
    "sotsiaalkaitse_infosusteem",
    "sotsiaalteenuste_ja_toetuste_register",
    "tooinspektsiooni_tooelu_infosusteem",
    "tootuskindlustuse_andmekogu"
  ]

  /** The query parameters, one per system code, in order. */
  function Parameters(codes: seq<string>): (r: seq<string>)
    ensures |r| == |codes|
    ensures forall k :: 0 <= k < |codes| ==> r[k] == ParameterName + codes[k]
  {
    if codes == [] then [] else [ParameterName + codes[0]] + Parameters(codes[1..])
  }

  /** `dataTrackerUrl()`: the prefix, then the parameters joined by `&`. */
  function DataTrackerUrl(): (r: string)
    ensures StartsWith(r, UsagesPrefix)
  {
    UsagesPrefix + Join(Parameters(DataSystems), ParameterSeparator)
  }

  /** The URL is the usages endpoint followed by one `dataSystemCodes=<code>` parameter
      per register, fifteen in all, in order, separated by single `&`s. */
  lemma DataTrackerUrlShape()
    ensures StartsWith(DataTrackerUrl(), UsagesPrefix)
    ensures |Parameters(DataSystems)| == 15
    ensures Split(DataTrackerUrl()[|UsagesPrefix|..], ParameterSeparator) == Parameters(DataSystems)
  {
    CodesAvoidSeparator();
    QueryParameters(DataSystems);
    var url := DataTrackerUrl();
    assert url[..|UsagesPrefix|] == UsagesPrefix;
    assert url[|UsagesPrefix|..] == Join(Parameters(DataSystems), ParameterSeparator);
  }

  /** Splitting the joined query on `&` gives back one parameter per code, provided no
      code holds an `&`. */
  lemma QueryParameters(codes: seq<string>)
    requires |codes| >= 1
    requires forall k :: 0 <= k < |codes| ==> ParameterSeparator !in codes[k]
    ensures Split(Join(Parameters(codes), ParameterSeparator), ParameterSeparator) == Parameters(codes)
  {
    var ps := Parameters(codes);
    assert ParameterSeparator !in ParameterName;
    forall k | 0 <= k < |ps|
      ensures ParameterSeparator !in ps[k]
    {
      assert ps[k] == ParameterName + codes[k];
    }
    SplitJoin(ps, ParameterSeparator);
  }

  /** No register code holds an `&`. */
  lemma CodesAvoidSeparator()
    ensures forall k :: 0 <= k < |DataSystems| ==> ParameterSeparator !in DataSystems[k]
  {
    Code0AvoidsSeparator();
    Code1AvoidsSeparator();
    Code2AvoidsSeparator();
    Code3AvoidsSeparator();
    Code4AvoidsSeparator();
    Code5AvoidsSeparator();
    Code6AvoidsSeparator();
    Code7AvoidsSeparator();
    Code8AvoidsSeparator();
    Code9AvoidsSeparator();
    Code10AvoidsSeparator();
    Code11AvoidsSeparator();
    Code12AvoidsSeparator();
    Code13AvoidsSeparator();
    Code14AvoidsSeparator();
  }

  // One lemma per code: the solver checks a string literal character by character,
  // and several literals in one proof cost far more than each on its own.

  lemma Code0AvoidsSeparator()
    ensures ParameterSeparator !in "digiregistratuur"
  {
  }

  lemma Code1AvoidsSeparator()
    ensures ParameterSeparator !in "elamislubade_ja_toolubade_register"
  {
  }

  lemma Code2AvoidsSeparator()
    ensures ParameterSeparator !in "kinnistusraamat"
  {
  }

  lemma Code3AvoidsSeparator()
    ensures ParameterSeparator !in "kutseregister"
  {
  }

  lemma Code4AvoidsSeparator()
    ensures ParameterSeparator !in "maksukohustuslaste_register"
  {
  }

  lemma Code5AvoidsSeparator()
    ensures ParameterSeparator !in "infosusteem_polis"
  {
  }

  lemma Code6AvoidsSeparator()
    ensures ParameterSeparator !in "politsei_taktikalise_juhtimise_andmekogu"
  {
  }

  lemma Code7AvoidsSeparator()
    ensures ParameterSeparator !in "pollumajandusloomade_register"
  {
  }

  lemma Code8AvoidsSeparator()
    ensures ParameterSeparator !in "pollumajandustoetuste_ja_pollumassiivide_register"
  {
    LongestCodeHalvesAvoidSeparator();
    LongestCodeIsItsHalves();
  }

  /** The longest code is too long to check in one piece; it is taken in two halves. */
  lemma LongestCodeHalvesAvoidSeparator()
    ensures ParameterSeparator !in "pollumajandustoetuste_" + "ja_pollumassiivide_register"
  {
  }

  lemma LongestCodeIsItsHalves()
    ensures "pollumajandustoetuste_" + "ja_pollumassiivide_register" == "pollumajandustoetuste_ja_pollumassiivide_register"
  {
  }

  lemma Code9AvoidsSeparator()
    ensures ParameterSeparator !in "rahvastikuregister"
  {
  }

  lemma Code10AvoidsSeparator()
    ensures ParameterSeparator !in "retseptikeskus"
  {
  }

  lemma Code11AvoidsSeparator()
    ensures ParameterSeparator !in "sotsiaalkaitse_infosusteem"
  {
  }

  lemma Code12AvoidsSeparator()
    ensures ParameterSeparator !in "sotsiaalteenuste_ja_toetuste_register"
  {
  }

  lemma Code13AvoidsSeparator()
    ensures ParameterSeparator !in "tooinspektsiooni_tooelu_infosusteem"
  {
  }

  lemma Code14AvoidsSeparator()
    ensures ParameterSeparator !in "tootuskindlustuse_andmekogu"
  {
  }

  /** The URL the earlier worker revision (JwtExtentionWorker.kt:27) spells out by hand
      as one literal, transcribed here split at its parameters. */
  const WorkerDataTrackerUrl :=
    "https://www.eesti.ee/andmejalgija/api/v1/usages?"
    + ("dataSystemCodes=" + "digiregistratuur" + "&"
    + ("dataSystemCodes=" + "elamislubade_ja_toolubade_register" + "&"
    + ("dataSystemCodes=" + "kinnistusraamat" + "&"
    + ("dataSystemCodes=" + "kutseregister" + "&"
    + ("dataSystemCodes=" + "maksukohustuslaste_register" + "&"
    + ("dataSystemCodes=" + "infosusteem_polis" + "&"
    + ("dataSystemCodes=" + "politsei_taktikalise_juhtimise_andmekogu" + "&"
    + ("dataSystemCodes=" + "pollumajandusloomade_register" + "&"
    + ("dataSystemCodes=" + "pollumajandustoetuste_ja_pollumassiivide_register" + "&"
    + ("dataSystemCodes=" + "rahvastikuregister" + "&"
    + ("dataSystemCodes=" + "retseptikeskus" + "&"
    + ("dataSystemCodes=" + "sotsiaalkaitse_infosusteem" + "&"
    + ("dataSystemCodes=" + "sotsiaalteenuste_ja_toetuste_register" + "&"
    + ("dataSystemCodes=" + "tooinspektsiooni_tooelu_infosusteem" + "&"
    + ("dataSystemCodes=" + "tootuskindlustuse_andmekogu")))))))))))))))

  /** The assembled URL is the one the worker spells out. */
  lemma UrlMatchesWorker()
    ensures DataTrackerUrl() == WorkerDataTrackerUrl
  {
    JoinParameters(DataSystems);
    FirstPiecesAsWritten(DataSystems);
    MiddlePiecesAsWritten(DataSystems);
    LastPiecesAsWritten(DataSystems);
  }

  /** Pieces 0 to 4 of the query, as the worker writes them. */
  lemma FirstPiecesAsWritten(codes: seq<string>)
    requires codes == DataSystems
    ensures Piece(codes, 0) == "dataSystemCodes=" + "digiregistratuur" + "&"
    ensures Piece(codes, 1) == "dataSystemCodes=" + "elamislubade_ja_toolubade_register" + "&"
    ensures Piece(codes, 2) == "dataSystemCodes=" + "kinnistusraamat" + "&"
    ensures Piece(codes, 3) == "dataSystemCodes=" + "kutseregister" + "&"
    ensures Piece(codes, 4) == "dataSystemCodes=" + "maksukohustuslaste_register" + "&"
  {
  }

  /** Pieces 5 to 9 of the query, as the worker writes them. */
  lemma MiddlePiecesAsWritten(codes: seq<string>)
    requires codes == DataSystems
    ensures Piece(codes, 5) == "dataSystemCodes=" + "infosusteem_polis" + "&"
    ensures Piece(codes, 6) == "dataSystemCodes=" + "politsei_taktikalise_juhtimise_andmekogu" + "&"
    ensures Piece(codes, 7) == "dataSystemCodes=" + "pollumajandusloomade_register" + "&"
    ensures Piece(codes, 8) == "dataSystemCodes=" + "pollumajandustoetuste_ja_pollumassiivide_register" + "&"
    ensures Piece(codes, 9) == "dataSystemCodes=" + "rahvastikuregister" + "&"
  {
  }

  /** Pieces 10 to 14 of the query, as the worker writes them. */
  lemma LastPiecesAsWritten(codes: seq<string>)
    requires codes == DataSystems
    ensures Piece(codes, 10) == "dataSystemCodes=" + "retseptikeskus" + "&"
    ensures Piece(codes, 11) == "dataSystemCodes=" + "sotsiaalkaitse_infosusteem" + "&"
    ensures Piece(codes, 12) == "dataSystemCodes=" + "sotsiaalteenuste_ja_toetuste_register" + "&"
    ensures Piece(codes, 13) == "dataSystemCodes=" + "tooinspektsiooni_tooelu_infosusteem" + "&"
    ensures Piece(codes, 14) == "dataSystemCodes=" + "tootuskindlustuse_andmekogu"
  {
  }

  /** Parameter `k` of the query, followed by its separator unless it is the last. */
  function Piece(codes: seq<string>, k: nat): string
    requires k < |codes|
  {
    ParameterName + codes[k] + if k < |codes| - 1 then [ParameterSeparator] else ""
  }

  /** The joined parameters, nested from the right as the pieces are written out. */
  function Nested(codes: seq<string>, k: nat): string
    requires k < |codes|
    decreases |codes| - k
  {
    if k == |codes| - 1 then Piece(codes, k) else Piece(codes, k) + Nested(codes, k + 1)
  }

  lemma {:induction false} JoinParametersFrom(codes: seq<string>, k: nat)
    requires k < |codes|
    ensures Join(Parameters(codes)[k..], ParameterSeparator) == Nested(codes, k)
    decreases |codes| - k
  {
    var ps := Parameters(codes);
    if k < |codes| - 1 {
      JoinParametersFrom(codes, k + 1);
      assert ps[k..] == [ps[k]] + ps[k + 1..];
      JoinCons(ps[k], ps[k + 1..], ParameterSeparator);
    } else {
      assert ps[k..] == [ps[k]];
    }
  }

  lemma JoinParameters(codes: seq<string>)
    requires codes == DataSystems
    ensures Join(Parameters(codes), ParameterSeparator) ==
      Piece(codes, 0) + (
      Piece(codes, 1) + (
      Piece(codes, 2) + (
      Piece(codes, 3) + (
      Piece(codes, 4) + (
      Piece(codes, 5) + (
      Piece(codes, 6) + (
      Piece(codes, 7) + (
      Piece(codes, 8) + (
      Piece(codes, 9) + (
      Piece(codes, 10) + (
      Piece(codes, 11) + (
      Piece(codes, 12) + (
      Piece(codes, 13) + (
      Piece(codes, 14)))))))))))))))
  {
    JoinParametersFrom(codes, 0);
    assert Parameters(codes)[0..] == Parameters(codes);
  }
}
