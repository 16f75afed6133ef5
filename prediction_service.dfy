/**
 * The prediction endpoint of the Flask service: filtering the supplied symptoms
 * against the vocabulary, one-hot encoding them, a majority vote of three
 * classifiers, the candidate diseases that share a symptom with the input, and
 * the choice between a single diagnosis and an "ask more" reply.
 *
 * The trained models, the label encoder and scipy's tie-break are opaque: they
 * are fields of `Models`, and each call returns `None` where the real call
 * raises.
 */
module PredictionService {
  import opened Wrappers
  import opened Names

  /** An encoded class label, as the classifiers predict it. */
  type Label = int

  /** How many follow-up symptoms an "ask more" reply offers at most. */
  const MAX_FOLLOW_UPS: nat := 3
  const NO_VALID_SYMPTOMS: string := "No valid symptoms provided."
  const SYMPTOMS_NOT_FOUND: string := "Symptoms data not found."

  /** One entry of the disease-to-symptoms dictionary, in its iteration order. */
  datatype Entry = Entry(disease: Disease, symptoms: seq<Symptom>)

  ghost predicate DistinctDiseases(t: seq<Entry>) {
    forall i, j :: 0 <= i < j < |t| ==> t[i].disease != t[j].disease
  }

  /** A dictionary: its keys are distinct. */
  type DiseaseTable = t: seq<Entry> | DistinctDiseases(t) witness []

  /** Which of the three votes the tie-break picks when all three differ. */
  datatype Slot = First | Second | Third

  /** The pickled models; `None` stands for a call that raises. */
  datatype Models = Models(
    svm: seq<int> -> Option<Label>,
    nb: seq<int> -> Option<Label>,
    rf: seq<int> -> Option<Label>,
    tieBreak: (Label, Label, Label) -> Slot,
    decode: Label -> Option<Disease>)

  /** What start-up bound. The names are bound one at a time and the dictionary last, so a
      load that fails only at the dictionary leaves the vocabulary and the models bound. */
  datatype Service = Service(vocabulary: seq<Symptom>, table: Option<DiseaseTable>, models: Models)

  /** The request body: not usable as JSON, or a JSON object whose "symptoms" key may be absent. */
  datatype Body = NotJson | Json(symptoms: Option<seq<Symptom>>)

  datatype Response =
    | Rejected(message: string)   // {"error": message} with status 400
    | ServerError                 // {"error": <exception text>} with status 500
    | AskMore(possibleDiseases: seq<Disease>, askMoreSymptoms: seq<Symptom>)
    | Diagnosis(disease: Disease)

  datatype SymptomsResponse = SymptomList(symptoms: seq<Symptom>) | SymptomsError(message: Option<string>)

  function Status(r: Response): (code: int)
    ensures code == 200 <==> r.AskMore? || r.Diagnosis?
    ensures code == 400 <==> r.Rejected?
  {
    match r
    case Rejected(_) => 400
    case ServerError => 500
    case _ => 200
  }

  function Elements(s: seq<Symptom>): set<Symptom> {
    set x | x in s
  }

  predicate Distinct<T(==)>(s: seq<T>) {
    forall i, j :: 0 <= i < j < |s| ==> s[i] != s[j]
  }

  /** The symptoms list of the request; a missing key reads as the empty list. */
  function Requested(body: Body): (supplied: seq<Symptom>)
    requires body.Json?
    ensures body.symptoms.None? ==> supplied == []
    ensures body.symptoms.Some? ==> supplied == body.symptoms.value
  {
    if body.symptoms.Some? then body.symptoms.value else []
  }

  // ---------------------------------------------------------------------------
  // Vocabulary filter and feature vector

  /** The supplied symptoms that are in the vocabulary, in input order. */
  function Filter(supplied: seq<Symptom>, vocabulary: seq<Symptom>): (kept: seq<Symptom>)
    ensures |kept| <= |supplied|
    ensures forall s :: s in kept <==> s in supplied && s in vocabulary
  {
    if supplied == [] then []
    else (if supplied[0] in vocabulary then [supplied[0]] else []) + Filter(supplied[1..], vocabulary)
  }

  /** Filtering distributes over concatenation: order is kept and nothing moves across. */
  lemma {:induction false} FilterAppend(a: seq<Symptom>, b: seq<Symptom>, vocabulary: seq<Symptom>)
    ensures Filter(a + b, vocabulary) == Filter(a, vocabulary) + Filter(b, vocabulary)
  {
    if a == [] {
      assert a + b == b;
    } else {
      assert (a + b)[1..] == a[1..] + b;
      FilterAppend(a[1..], b, vocabulary);
    }
  }

  /** Filtering an already filtered list changes nothing. */
  lemma {:induction false} FilterIdempotent(supplied: seq<Symptom>, vocabulary: seq<Symptom>)
    ensures Filter(Filter(supplied, vocabulary), vocabulary) == Filter(supplied, vocabulary)
  {
    if supplied != [] {
      var head := if supplied[0] in vocabulary then [supplied[0]] else [];
      FilterAppend(head, Filter(supplied[1..], vocabulary), vocabulary);
      FilterIdempotent(supplied[1..], vocabulary);
      if head != [] {
        assert head[1..] == [];
      }
    }
  }

  /** One entry per vocabulary symptom: 1 where it was supplied, 0 elsewhere. */
  function Features(vocabulary: seq<Symptom>, kept: seq<Symptom>): (v: seq<int>)
    ensures |v| == |vocabulary|
    ensures forall i :: 0 <= i < |vocabulary| ==> v[i] == (if vocabulary[i] in kept then 1 else 0)
  {
    if vocabulary == [] then []
    else [if vocabulary[0] in kept then 1 else 0] + Features(vocabulary[1..], kept)
  }

  /** The symptoms a feature vector marks as present. */
  ghost function Marked(vocabulary: seq<Symptom>, v: seq<int>): set<Symptom>
    requires |v| == |vocabulary|
  {
    set i | 0 <= i < |vocabulary| && v[i] == 1 :: vocabulary[i]
  }

  /** Reading the marked symptoms back from the vector gives exactly the filtered symptoms. */
  lemma FeaturesRoundTrip(vocabulary: seq<Symptom>, kept: seq<Symptom>)
    requires forall s :: s in kept ==> s in vocabulary
    ensures Marked(vocabulary, Features(vocabulary, kept)) == Elements(kept)
  {
    var v := Features(vocabulary, kept);
    forall s | s in kept
      ensures s in Marked(vocabulary, v)
    {
      var i :| 0 <= i < |vocabulary| && vocabulary[i] == s;
      assert v[i] == 1;
    }
  }

  // ---------------------------------------------------------------------------
  // Majority vote of the three classifiers

  /** The mode of three votes; when all three differ the tie-break picks one of them. */
  function Majority(a: Label, b: Label, c: Label, tie: Slot): (r: Label)
    ensures r in multiset{a, b, c}
    ensures forall x :: multiset{a, b, c}[x] <= multiset{a, b, c}[r]
  {
    if a == b || a == c then a
    else if b == c then b
    else match tie
      case First => a
      case Second => b
      case Third => c
  }

  /** A label that at least two of the votes share is the outcome of the vote. */
  lemma {:induction false} MajorityKeepsAgreement(a: Label, b: Label, c: Label, tie: Slot, l: Label)
    requires multiset{a, b, c}[l] >= 2
    ensures Majority(a, b, c, tie) == l
  {
  }

  /** At least two of the three classifiers predict `l` on `f`. */
  ghost predicate TwoVoteFor(m: Models, f: seq<int>, l: Label) {
    (m.svm(f) == Some(l) && m.nb(f) == Some(l))
    || (m.svm(f) == Some(l) && m.rf(f) == Some(l))
    || (m.nb(f) == Some(l) && m.rf(f) == Some(l))
  }

  /** Predict with all three models, take the mode and decode it. */
  function Classify(m: Models, f: seq<int>): (name: Option<Disease>)
    ensures m.svm(f).None? || m.nb(f).None? || m.rf(f).None? ==> name.None?
    ensures forall l :: TwoVoteFor(m, f, l) && m.svm(f).Some? && m.nb(f).Some? && m.rf(f).Some?
                        ==> name == m.decode(l)
  {
    match (m.svm(f), m.nb(f), m.rf(f))
    case (Some(a), Some(b), Some(c)) =>
      var winner := Majority(a, b, c, m.tieBreak(a, b, c));
      assert forall l :: TwoVoteFor(m, f, l) ==> winner == l by {
        forall l | TwoVoteFor(m, f, l) ensures winner == l {
          MajorityKeepsAgreement(a, b, c, m.tieBreak(a, b, c), l);
        }
      }
      m.decode(winner)
    case _ => None
  }

  // ---------------------------------------------------------------------------
  // Candidate diseases and distinguishing symptoms

  /** Some symptom of `symptoms` was supplied. */
  predicate Shares(symptoms: seq<Symptom>, kept: seq<Symptom>) {
    exists s :: s in symptoms && s in kept
  }

  /** The diseases, in dictionary order, whose symptom list shares a symptom with `kept`. */
  ghost function Matching(t: seq<Entry>, kept: seq<Symptom>): (r: seq<Disease>)
    ensures |r| <= |t|
    ensures forall d :: d in r <==> exists i :: 0 <= i < |t| && t[i].disease == d && Shares(t[i].symptoms, kept)
  {
    if t == [] then []
    else
      var last := t[|t| - 1];
      var r := Matching(t[..|t| - 1], kept) + (if Shares(last.symptoms, kept) then [last.disease] else []);
      assert forall d :: d in r ==> exists i :: 0 <= i < |t| && t[i].disease == d && Shares(t[i].symptoms, kept) by {
        forall d | d in r
          ensures exists i :: 0 <= i < |t| && t[i].disease == d && Shares(t[i].symptoms, kept)
        {
          if d in Matching(t[..|t| - 1], kept) {
            var i :| 0 <= i < |t| - 1 && t[..|t| - 1][i].disease == d && Shares(t[..|t| - 1][i].symptoms, kept);
            assert t[i] == t[..|t| - 1][i];
          }
        }
      }
      assert forall i :: 0 <= i < |t| - 1 ==> t[..|t| - 1][i] == t[i];
      r
  }

  /** Matching preserves dictionary order: it distributes over splitting the dictionary. */
  lemma {:induction false} MatchingAppend(a: seq<Entry>, b: seq<Entry>, kept: seq<Symptom>)
    ensures Matching(a + b, kept) == Matching(a, kept) + Matching(b, kept)
    decreases |b|
  {
    if b == [] {
      assert a + b == a;
    } else {
      var b' := b[..|b| - 1];
      assert (a + b)[..|a + b| - 1] == a + b';
      MatchingAppend(a, b', kept);
    }
  }

  /** A dictionary's candidates have no duplicates. */
  lemma {:induction false} MatchingDistinct(t: seq<Entry>, kept: seq<Symptom>)
    requires DistinctDiseases(t)
    ensures Distinct(Matching(t, kept))
  {
    if t != [] {
      var init := t[..|t| - 1];
      assert forall i :: 0 <= i < |init| ==> init[i] == t[i];
      MatchingDistinct(init, kept);
      var last := t[|t| - 1];
      assert last.disease !in Matching(init, kept) by {
        forall i | 0 <= i < |init| ensures init[i].disease != last.disease {
          assert t[i].disease != t[|t| - 1].disease;
        }
      }
    }
  }

  predicate HasKey(t: seq<Entry>, d: Disease) {
    exists i :: 0 <= i < |t| && t[i].disease == d
  }

  /** `disease_symptom_map[d]`: the symptom list of the (first) entry for `d`. */
  function Lookup(t: seq<Entry>, d: Disease): (symptoms: seq<Symptom>)
    requires HasKey(t, d)
    ensures exists i :: 0 <= i < |t| && t[i].disease == d && t[i].symptoms == symptoms
  {
    if t[0].disease == d then t[0].symptoms
    else
      assert HasKey(t[1..], d) by {
        var i :| 0 <= i < |t| && t[i].disease == d;
        assert t[1..][i - 1] == t[i];
      }
      var r := Lookup(t[1..], d);
      assert exists i :: 0 <= i < |t| && t[i].disease == d && t[i].symptoms == r by {
        var i :| 0 <= i < |t[1..]| && t[1..][i].disease == d && t[1..][i].symptoms == r;
        assert t[i + 1] == t[1..][i];
      }
      r
  }

  /** Since dictionary keys are distinct, the lookup is the symptom list stored under that key. */
  lemma LookupIsEntry(t: DiseaseTable, d: Disease, i: int)
    requires 0 <= i < |t| && t[i].disease == d
    ensures HasKey(t, d) && Lookup(t, d) == t[i].symptoms
  {
  }

  /** The union of the symptom lists of `diseases`. */
  ghost function Pool(t: seq<Entry>, diseases: seq<Disease>): set<Symptom>
    requires forall d :: d in diseases ==> HasKey(t, d)
  {
    if diseases == [] then {}
    else Pool(t, diseases[..|diseases| - 1]) + Elements(Lookup(t, diseases[|diseases| - 1]))
  }

  /** A symptom is in the pool exactly when it is on the list of one of the diseases. */
  lemma {:induction false} PoolMembers(t: seq<Entry>, diseases: seq<Disease>, s: Symptom)
    requires forall d :: d in diseases ==> HasKey(t, d)
    ensures s in Pool(t, diseases) <==> exists d :: d in diseases && s in Lookup(t, d)
  {
    if diseases != [] {
      var init, last := diseases[..|diseases| - 1], diseases[|diseases| - 1];
      assert diseases == init + [last];
      PoolMembers(t, init, s);
      if s in Elements(Lookup(t, last)) {
        assert last in diseases && s in Lookup(t, last);
      } else if s in Pool(t, init) {
        var d :| d in init && s in Lookup(t, d);
        assert d in diseases;
      } else {
        forall d | d in diseases ensures s !in Lookup(t, d) {
          if d != last {
            assert d in init;
          }
        }
      }
    }
  }

  /** The loop at the candidate step: the dictionary's diseases that share a supplied symptom. */
  method CollectPossibleDiseases(t: seq<Entry>, kept: seq<Symptom>) returns (possible: seq<Disease>)
    ensures possible == Matching(t, kept)
  {
    possible := [];
    var i := 0;
    while i < |t|
      invariant 0 <= i <= |t|
      invariant possible == Matching(t[..i], kept)
    {
      assert t[..i + 1][..i] == t[..i];
      if exists s :: s in t[i].symptoms && s in kept {
        possible := possible + [t[i].disease];
      }
      i := i + 1;
    }
    assert t[..i] == t;
  }

  /** The loop that gathers the candidates' symptoms, then drops the supplied ones. */
  method DistinguishingSymptoms(t: seq<Entry>, possible: seq<Disease>, kept: seq<Symptom>)
    returns (pool: set<Symptom>)
    requires forall d :: d in possible ==> HasKey(t, d)
    ensures pool == Pool(t, possible) - Elements(kept)
  {
    pool := {};
    var i := 0;
    while i < |possible|
      invariant 0 <= i <= |possible|
      invariant pool == Pool(t, possible[..i])
    {
      assert possible[..i + 1][..i] == possible[..i];
      pool := pool + Elements(Lookup(t, possible[i]));
      i := i + 1;
    }
    assert possible[..i] == possible;
    pool := pool - Elements(kept);
  }

  /** `list(pool)[:n]`: `n` distinct members of the pool (all of it if it is smaller), in unspecified order. */
  ghost predicate Listing(list: seq<Symptom>, pool: set<Symptom>, n: nat) {
    && Distinct(list)
    && (forall x :: x in list ==> x in pool)
    && |list| == (if |pool| < n then |pool| else n)
  }

  /** Lists at most `n` members of a set, in whatever order the set yields them. */
  method TakeFromSet(pool: set<Symptom>, n: nat) returns (list: seq<Symptom>)
    ensures Listing(list, pool, n)
  {
    list := [];
    var rest := pool;
    while rest != {} && |list| < n
      invariant rest <= pool
      invariant Distinct(list)
      invariant forall x :: x in list ==> x in pool && x !in rest
      invariant |list| + |rest| == |pool|
      invariant |list| <= n
      decreases rest
    {
      var x :| x in rest;
      list := list + [x];
      rest := rest - {x};
    }
  }

  // ---------------------------------------------------------------------------
  // The endpoints

  /** Every response `predict` may give; only the order of the follow-up list is left open.
      An empty symptom list is rejected even when start-up failed, because the filter then
      never looks the vocabulary up. */
  ghost predicate Admissible(loaded: Option<Service>, body: Body, r: Response) {
    if body.NotJson? then r == ServerError
    else if Requested(body) == [] then r == Rejected(NO_VALID_SYMPTOMS)
    else if loaded.None? then r == ServerError
    else
      var svc := loaded.value;
      var kept := Filter(Requested(body), svc.vocabulary);
      if kept == [] then r == Rejected(NO_VALID_SYMPTOMS)
      else
        var name := Classify(svc.models, Features(svc.vocabulary, kept));
        if name.None? || svc.table.None? then r == ServerError
        else
          var possible := Matching(svc.table.value, kept);
          if |possible| > 1 then
            && r.AskMore?
            && r.possibleDiseases == possible
            && Listing(r.askMoreSymptoms, Pool(svc.table.value, possible) - Elements(kept), MAX_FOLLOW_UPS)
          else r == Diagnosis(name.value)
  }

  /** The `/api/predict` handler. */
  method Predict(loaded: Option<Service>, body: Body) returns (r: Response)
    ensures Admissible(loaded, body, r)
  {
    if body.NotJson? {
      return ServerError;
    }
    if Requested(body) == [] {
      return Rejected(NO_VALID_SYMPTOMS);
    }
    if loaded.None? {
      return ServerError;
    }
    var svc := loaded.value;
    var kept := Filter(Requested(body), svc.vocabulary);
    if kept == [] {
      return Rejected(NO_VALID_SYMPTOMS);
    }
    var features := Features(svc.vocabulary, kept);
    var name := Classify(svc.models, features);
    if name.None? || svc.table.None? {
      return ServerError;
    }
    var possible := CollectPossibleDiseases(svc.table.value, kept);
    if |possible| > 1 {
      forall d | d in possible ensures HasKey(svc.table.value, d) { }
      var pool := DistinguishingSymptoms(svc.table.value, possible, kept);
      var followUps := TakeFromSet(pool, MAX_FOLLOW_UPS);
      return AskMore(possible, followUps);
    }
    return Diagnosis(name.value);
  }

  /** The `/api/get_symptoms` handler; it needs only the vocabulary. */
  function GetSymptoms(loaded: Option<Service>): (r: SymptomsResponse)
    ensures r.SymptomList? <==> loaded.Some? && loaded.value.vocabulary != []
    ensures r.SymptomList? ==> r.symptoms == loaded.value.vocabulary
    ensures loaded.Some? && loaded.value.vocabulary == [] ==> r == SymptomsError(Some(SYMPTOMS_NOT_FOUND))
  {
    if loaded.None? then SymptomsError(None)
    else if loaded.value.vocabulary == [] then SymptomsError(Some(SYMPTOMS_NOT_FOUND))
    else SymptomList(loaded.value.vocabulary)
  }

  // ---------------------------------------------------------------------------
  // What every admissible response promises

  /** 400 exactly when none of the supplied symptoms is in the vocabulary. */
  lemma RejectedIffNoValidSymptom(svc: Service, body: Body, r: Response)
    requires body.Json? && Admissible(Some(svc), body, r)
    ensures r.Rejected? <==> forall s :: s in Requested(body) ==> s !in svc.vocabulary
    ensures r.Rejected? ==> r.message == NO_VALID_SYMPTOMS && Status(r) == 400
  {
    var kept := Filter(Requested(body), svc.vocabulary);
    if kept != [] {
      assert kept[0] in kept;
    }
  }

  /** An "ask more" reply: at least two distinct candidates, each sharing a supplied symptom,
      and at most three follow-ups, none supplied, each on some candidate's list. */
  lemma AskMoreShape(svc: Service, body: Body, r: Response)
    requires body.Json? && Admissible(Some(svc), body, r) && r.AskMore?
    ensures svc.table.Some?
    ensures |r.possibleDiseases| >= 2 && Distinct(r.possibleDiseases)
    ensures forall d :: d in r.possibleDiseases ==>
      exists i :: 0 <= i < |svc.table.value| && svc.table.value[i].disease == d
                  && Shares(svc.table.value[i].symptoms, Filter(Requested(body), svc.vocabulary))
    ensures |r.askMoreSymptoms| <= MAX_FOLLOW_UPS && Distinct(r.askMoreSymptoms)
    ensures forall s :: s in r.askMoreSymptoms ==> s !in Filter(Requested(body), svc.vocabulary)
    ensures forall s :: s in r.askMoreSymptoms ==>
      exists d :: d in r.possibleDiseases && HasKey(svc.table.value, d) && s in Lookup(svc.table.value, d)
  {
    var kept := Filter(Requested(body), svc.vocabulary);
    var possible := Matching(svc.table.value, kept);
    MatchingDistinct(svc.table.value, kept);
    forall s | s in r.askMoreSymptoms
      ensures exists d :: d in possible && HasKey(svc.table.value, d) && s in Lookup(svc.table.value, d)
    {
      PoolMembers(svc.table.value, possible, s);
    }
  }

  /** The follow-up list is empty only when every candidate symptom was already supplied. */
  lemma EmptyFollowUps(svc: Service, body: Body, r: Response)
    requires body.Json? && Admissible(Some(svc), body, r) && r.AskMore? && r.askMoreSymptoms == []
    ensures svc.table.Some?
    ensures forall d, s :: d in r.possibleDiseases && HasKey(svc.table.value, d) && s in Lookup(svc.table.value, d)
                           ==> s in Filter(Requested(body), svc.vocabulary)
  {
    var kept := Filter(Requested(body), svc.vocabulary);
    var possible := Matching(svc.table.value, kept);
    var unsupplied := Pool(svc.table.value, possible) - Elements(kept);
    assert |unsupplied| == 0;
    forall d, s | d in possible && HasKey(svc.table.value, d) && s in Lookup(svc.table.value, d)
      ensures s in kept
    {
      PoolMembers(svc.table.value, possible, s);
      assert s in Pool(svc.table.value, possible);
      assert s !in unsupplied;
      assert s in Elements(kept);
    }
  }

  /** A diagnosis comes with at most one candidate and is the decoded majority label. */
  lemma DiagnosisShape(svc: Service, body: Body, r: Response, l: Label)
    requires body.Json? && Admissible(Some(svc), body, r) && r.Diagnosis?
    requires TwoVoteFor(svc.models, Features(svc.vocabulary, Filter(Requested(body), svc.vocabulary)), l)
    ensures svc.table.Some?
    ensures |Matching(svc.table.value, Filter(Requested(body), svc.vocabulary))| <= 1
    ensures svc.models.decode(l) == Some(r.disease)
  {
    var f := Features(svc.vocabulary, Filter(Requested(body), svc.vocabulary));
    assert Classify(svc.models, f).Some?;
  }

  /** A failing model or decoder turns any valid request into a 500, even one that would ask for more. */
  lemma FailingModelIsServerError(svc: Service, body: Body, r: Response)
    requires body.Json? && Admissible(Some(svc), body, r)
    requires Filter(Requested(body), svc.vocabulary) != []
    requires Classify(svc.models, Features(svc.vocabulary, Filter(Requested(body), svc.vocabulary))).None?
    ensures r == ServerError && Status(r) == 500
  {
  }

  /** When start-up failed before the vocabulary was bound, a request that supplies no symptom
      at all is still rejected with 400; any other JSON request gets a 500. */
  lemma UnloadedServiceRejectsOnlyEmptyRequests(body: Body, r: Response)
    requires body.Json? && Admissible(None, body, r)
    ensures r.Rejected? <==> body.symptoms.None? || body.symptoms.value == []
    ensures r.Rejected? ==> r.message == NO_VALID_SYMPTOMS && Status(r) == 400
    ensures !r.Rejected? ==> r == ServerError && Status(r) == 500
  {
  }

  /** A dictionary that failed to load is noticed only after classification: requests without a
      valid symptom are still rejected with 400, the others get a 500. */
  lemma MissingTableIsServerError(svc: Service, body: Body, r: Response)
    requires body.Json? && Admissible(Some(svc), body, r) && svc.table.None?
    ensures r.Rejected? <==> Filter(Requested(body), svc.vocabulary) == []
    ensures !r.Rejected? ==> r == ServerError
  {
  }
}
