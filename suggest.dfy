/**
 * Peer retrieval and the suggestion engine (main/app/utils/suggest.py).
 *
 * The historical dataset is a sequence of records whose `cos` column is
 * overwritten by every peer search; the other corpus artifacts (per-field
 * token sets, filter vocabulary, chi-square and odds-ratio tables) are
 * immutable. Cosine values and statistics are given reals.
 */
module Suggest {
  import opened Wrappers
  import opened SeqUtil

  /** THRESHOLD: the least cosine similarity of a peer. */
  const Threshold: real := 0.05
  /** `[:20]` on the ranked peers and on each recommendation table. */
  const MaxPeers: nat := 20
  const MaxTokens: nat := 20

  // ---------------------------------------------------------------------
  // Data model
  // ---------------------------------------------------------------------

  /** The three text fields. */
  datatype Field = Title | Description | Content
  const Fields: seq<Field> := [Title, Description, Content]
  const FieldSet: set<Field> := {Title, Description, Content}

  /** One value per text field. */
  datatype PerField<T> = PerField(title: T, description: T, content: T) {
    function Get(f: Field): T {
      match f
      case Title => title
      case Description => description
      case Content => content
    }
  }

  /** The numeric columns of the metadata suggestion, in the source's order. */
  datatype MetaColumn = Goal | ContentLength | DurationDays | MaxSetPrices | DescriptionLength | MinSetPrices
  const MetaColumns: seq<MetaColumn> := [Goal, ContentLength, DurationDays, MaxSetPrices, DescriptionLength, MinSetPrices]
  const MetaColumnSet: set<MetaColumn> := {Goal, ContentLength, DurationDays, MaxSetPrices, DescriptionLength, MinSetPrices}

  /** The categorical columns of the category suggestion. */
  datatype CategoryColumn = DomainColumn | TypeColumn
  const CategoryColumns: seq<CategoryColumn> := [DomainColumn, TypeColumn]
  const CategoryColumnSet: set<CategoryColumn> := {DomainColumn, TypeColumn}

  /** One row of the historical dataset. */
  datatype Record = Record(
    title: string, link: string, domain: string, projectType: string,
    percentage: real,
    goal: int, contentLength: int, durationDays: int,
    maxSetPrices: int, descriptionLength: int, minSetPrices: int,
    cos: real)
  {
    /** The derived `success` column: the project reached its goal. */
    predicate Success() {
      percentage >= 1.0
    }

    function Meta(c: MetaColumn): real {
      match c
      case Goal => goal as real
      case ContentLength => contentLength as real
      case DurationDays => durationDays as real
      case MaxSetPrices => maxSetPrices as real
      case DescriptionLength => descriptionLength as real
      case MinSetPrices => minSetPrices as real
    }

    function Category(c: CategoryColumn): string {
      match c
      case DomainColumn => domain
      case TypeColumn => projectType
    }
  }

  /** The keys of the submitted project that the suggestions read. */
  datatype ProjectFacts = ProjectFacts(
    domain: string, projectType: string,
    goal: int, contentLength: int, durationDays: int,
    maxSetPrices: int, descriptionLength: int, minSetPrices: int)
  {
    function Meta(c: MetaColumn): real {
      match c
      case Goal => goal as real
      case ContentLength => contentLength as real
      case DurationDays => durationDays as real
      case MaxSetPrices => maxSetPrices as real
      case DescriptionLength => descriptionLength as real
      case MinSetPrices => minSetPrices as real
    }

    function Category(c: CategoryColumn): string {
      match c
      case DomainColumn => domain
      case TypeColumn => projectType
    }
  }

  /**
   * The artifacts of one text field: each historical project's token set,
   * the filter vocabulary, and the chi-square and odds-ratio tables aligned
   * with the vocabulary by index.
   */
  datatype FieldData = FieldData(tokens: seq<set<string>>, filterCorpus: seq<string>, chi2: seq<real>, odds: seq<real>)

  /** The artifacts line up with a dataset of `n` rows. */
  ghost predicate FieldFits(fd: FieldData, n: nat) {
    |fd.tokens| == n && |fd.chi2| == |fd.filterCorpus| && |fd.odds| == |fd.filterCorpus|
  }

  ghost predicate ArtifactsFit(a: PerField<FieldData>, n: nat) {
    FieldFits(a.title, n) && FieldFits(a.description, n) && FieldFits(a.content, n)
  }

  lemma ArtifactsFitGet(a: PerField<FieldData>, n: nat, f: Field)
    requires ArtifactsFit(a, n)
    ensures FieldFits(a.Get(f), n)
  {
  }

  /** Every peer index is a row of a table of `n` rows. */
  ghost predicate PeersIn(peers: seq<nat>, n: nat) {
    forall k :: 0 <= k < |peers| ==> peers[k] < n
  }

  /** The peer rows, in peer order (`dataset.iloc[sim_proj, :]`). */
  function PeerRecords(ds: seq<Record>, peers: seq<nat>): seq<Record>
    requires PeersIn(peers, |ds|)
  {
    seq(|peers|, k requires 0 <= k < |peers| => ds[peers[k]])
  }

  /** The `cos` column of the dataset. */
  function CosColumn(ds: seq<Record>): seq<real> {
    seq(|ds|, i requires 0 <= i < |ds| => ds[i].cos)
  }

  /** The dataset with its `cos` column replaced. */
  function WithCos(ds: seq<Record>, cos: seq<real>): seq<Record>
    requires |cos| == |ds|
  {
    seq(|ds|, i requires 0 <= i < |ds| => ds[i].(cos := cos[i]))
  }

  predicate IsSuccessful(r: Record) { r.Success() }
  predicate IsFailed(r: Record) { !r.Success() }

  // ---------------------------------------------------------------------
  // Peer retrieval
  // ---------------------------------------------------------------------

  /**
   * The peer lists a search may return: at most 20 distinct rows, all with
   * similarity at least THRESHOLD, by non-increasing similarity, and such
   * that a qualifying row is left out only when 20 rows at least as similar
   * were taken. Ties may come in any order.
   */
  ghost predicate IsPeerRanking(cos: seq<real>, peers: seq<nat>) {
    && |peers| <= MaxPeers
    && Distinct(peers)
    && (forall k :: 0 <= k < |peers| ==> peers[k] < |cos| && cos[peers[k]] >= Threshold)
    && (forall a, b :: 0 <= a < b < |peers| ==> cos[peers[a]] >= cos[peers[b]])
    && (forall i :: 0 <= i < |cos| && cos[i] >= Threshold && i !in peers ==>
          |peers| == MaxPeers && forall k :: 0 <= k < |peers| ==> cos[i] <= cos[peers[k]])
  }

  function Indices(n: nat): (r: seq<nat>)
    ensures |r| == n && forall i :: 0 <= i < n ==> r[i] == i
  {
    seq(n, i requires 0 <= i < n => i as nat)
  }

  lemma IndicesDistinct(n: nat)
    ensures Distinct(Indices(n))
  {
  }

  /** Filtering keeps a sequence free of duplicates. */
  lemma {:induction false} FilterDistinct<T>(s: seq<T>, p: T -> bool)
    requires Distinct(s)
    ensures Distinct(Filter(s, p))
  {
    if s != [] {
      assert Distinct(s[1..]) by {
        forall i, j | 0 <= i < j < |s[1..]| ensures s[1..][i] != s[1..][j] {
          assert s[1..][i] == s[i + 1] && s[1..][j] == s[j + 1];
        }
      }
      FilterDistinct(s[1..], p);
      var rest := Filter(s[1..], p);
      assert s[0] !in s[1..] by {
        forall k | 0 <= k < |s[1..]| ensures s[1..][k] != s[0] {
          assert s[1..][k] == s[k + 1];
        }
      }
      var head := if p(s[0]) then [s[0]] else [];
      assert Filter(s, p) == head + rest;
      forall i, j | 0 <= i < j < |head + rest| ensures (head + rest)[i] != (head + rest)[j] {
        if i < |head| {
          assert (head + rest)[j] in rest;
        } else {
          assert (head + rest)[i] == rest[i - |head|] && (head + rest)[j] == rest[j - |head|];
        }
      }
    }
  }

  /** A permutation of a sequence without duplicates has none. */
  lemma PermutationDistinct<T>(s: seq<T>, t: seq<T>)
    requires Distinct(s) && multiset(s) == multiset(t)
    ensures Distinct(t)
  {
    DistinctMultiset(s);
    DistinctMultiset(t);
  }

  function Qualifies(cos: seq<real>): nat -> bool {
    (i: nat) => i < |cos| && cos[i] >= Threshold
  }

  /** The sort key of `sort_values('cos', ascending=False)`. */
  function RankKey(cos: seq<real>): nat -> real {
    (i: nat) => if i < |cos| then -cos[i] else 0.0
  }

  /** The rows with `cos >= THRESHOLD`, in dataset order. */
  function Qualifying(cos: seq<real>): seq<nat> {
    Filter(Indices(|cos|), Qualifies(cos))
  }

  /** Sorting keeps only qualifying rows. */
  lemma SortedQualify(cos: seq<real>)
    ensures forall x: nat :: x in SortBy(Qualifying(cos), RankKey(cos)) ==> x < |cos| && cos[x] >= Threshold
  {
    var q := Qualifying(cos);
    forall x: nat | x in SortBy(q, RankKey(cos)) ensures x < |cos| && cos[x] >= Threshold {
      SameElements(q, SortBy(q, RankKey(cos)), x);
      assert Qualifies(cos)(x);
    }
  }

  /** The returned peers: Qualifying sorted by decreasing `cos`, first 20; all qualify. */
  function TopPeers(cos: seq<real>): (peers: seq<nat>)
    ensures |peers| <= MaxPeers
    ensures forall k :: 0 <= k < |peers| ==> peers[k] < |cos| && cos[peers[k]] >= Threshold
  {
    SortedQualify(cos);
    var peers := Take(SortBy(Qualifying(cos), RankKey(cos)), MaxPeers);
    assert forall k :: 0 <= k < |peers| ==> peers[k] in SortBy(Qualifying(cos), RankKey(cos));
    peers
  }

  /** An element of a sorted sequence left out of its first `n` comes after all of them. */
  lemma TakeSortedLeavesLarger<T>(s: seq<T>, key: T -> real, n: nat, x: T)
    requires SortedBy(s, key) && x in s && x !in Take(s, n)
    ensures |Take(s, n)| == n && forall k :: 0 <= k < n ==> key(Take(s, n)[k]) <= key(x)
  {
    var j :| 0 <= j < |s| && s[j] == x;
  }

  lemma TopPeersDistinct(cos: seq<real>)
    ensures Distinct(TopPeers(cos))
  {
    var q := Qualifying(cos);
    var sorted := SortBy(q, RankKey(cos));
    IndicesDistinct(|cos|);
    FilterDistinct(Indices(|cos|), Qualifies(cos));
    PermutationDistinct(q, sorted);
    var peers := TopPeers(cos);
    forall a, b | 0 <= a < b < |peers| ensures peers[a] != peers[b] {
      assert peers[a] == sorted[a] && peers[b] == sorted[b];
    }
  }

  /** A qualifying row is left out only behind 20 rows at least as similar. */
  lemma TopPeersComplete(cos: seq<real>, i: nat)
    requires i < |cos| && cos[i] >= Threshold && i !in TopPeers(cos)
    ensures |TopPeers(cos)| == MaxPeers && forall k :: 0 <= k < MaxPeers ==> cos[i] <= cos[TopPeers(cos)[k]]
  {
    var q := Qualifying(cos);
    var sorted := SortBy(q, RankKey(cos));
    assert Indices(|cos|)[i] == i;
    FilterKeeps(Indices(|cos|), Qualifies(cos), i);
    SameElements(q, sorted, i);
    TakeSortedLeavesLarger(sorted, RankKey(cos), MaxPeers, i);
    forall k | 0 <= k < MaxPeers ensures cos[i] <= cos[TopPeers(cos)[k]] {
      assert RankKey(cos)(TopPeers(cos)[k]) <= RankKey(cos)(i);
    }
  }

  /** The chosen order is one of the orders the source may produce. */
  lemma TopPeersIsRanking(cos: seq<real>)
    ensures IsPeerRanking(cos, TopPeers(cos))
  {
    var peers := TopPeers(cos);
    var sorted := SortBy(Qualifying(cos), RankKey(cos));
    TopPeersDistinct(cos);
    forall a, b | 0 <= a < b < |peers| ensures cos[peers[a]] >= cos[peers[b]] {
      assert peers[a] == sorted[a] && peers[b] == sorted[b];
      assert RankKey(cos)(sorted[a]) <= RankKey(cos)(sorted[b]);
    }
    forall i | 0 <= i < |cos| && cos[i] >= Threshold && i !in peers
      ensures |peers| == MaxPeers && forall k :: 0 <= k < |peers| ==> cos[i] <= cos[peers[k]]
    {
      TopPeersComplete(cos, i);
    }
  }

  /** The errors of the suggestion engine. */
  datatype SuggestError =
    | LengthMismatch  // pandas ValueError: the new `cos` column does not fit the dataset
    | AxisError       // numpy AxisError of `sum(axis=1)` on a 1-D empty array

  // ---------------------------------------------------------------------
  // Text suggestion
  // ---------------------------------------------------------------------

  /** `reduce(lambda x, y: x | set(y), v, set())`. */
  function UnionAll(docs: seq<set<string>>): (u: set<string>)
    ensures forall k :: 0 <= k < |docs| ==> docs[k] <= u
    ensures forall t :: t in u ==> exists k :: 0 <= k < |docs| && t in docs[k]
  {
    if docs == [] then {}
    else
      var rest := UnionAll(docs[1..]);
      assert forall k :: 1 <= k < |docs| ==> docs[k] == docs[1..][k - 1];
      docs[0] + rest
  }

  /** The token sets of the peers, in peer order (`np.array(v)[sim_proj]`). */
  function PeerDocs(docs: seq<set<string>>, peers: seq<nat>): seq<set<string>>
    requires PeersIn(peers, |docs|)
  {
    seq(|peers|, k requires 0 <= k < |peers| => docs[peers[k]])
  }

  /** Peer tokens, minus the project's own, restricted to the filter vocabulary. */
  function CandidateSet(peerDocs: seq<set<string>>, own: seq<string>, vocab: seq<string>): set<string> {
    (UnionAll(peerDocs) - (set t | t in own)) * (set t | t in vocab)
  }

  /** `np.where(filter_corpus == t)[0][0]`: the first position of `t`. */
  function FirstIndex(vocab: seq<string>, t: string): (i: nat)
    requires t in vocab
    ensures i < |vocab| && vocab[i] == t && forall j :: 0 <= j < i ==> vocab[j] != t
  {
    if vocab[0] == t then 0 else 1 + FirstIndex(vocab[1..], t)
  }

  /** `[t in d for d in peer_docs]`. */
  function Mask(t: string, peerDocs: seq<set<string>>): seq<bool> {
    seq(|peerDocs|, k requires 0 <= k < |peerDocs| => t in peerDocs[k])
  }

  predicate IsTrue(b: bool) { b }

  /** The number of peer documents that contain `t`. */
  function DocCount(t: string, peerDocs: seq<set<string>>): nat {
    if peerDocs == [] then 0 else (if t in peerDocs[0] then 1 else 0) + DocCount(t, peerDocs[1..])
  }

  /** Boolean-mask indexing `props[mask]`. */
  function PeersWith(mask: seq<bool>, props: seq<string>): seq<string>
    requires |mask| == |props|
  {
    if mask == [] then [] else (if mask[0] then [props[0]] else []) + PeersWith(mask[1..], props[1..])
  }

  /** One candidate token with the per-token values the source computes. */
  datatype Candidate = Candidate(token: string, index: nat, docs: seq<bool>, df: nat, chi2: real, odds: real)

  function IsCandidateIndex(vocab: seq<string>, cset: set<string>): nat -> bool {
    (i: nat) => i < |vocab| && vocab[i] in cset && FirstIndex(vocab, vocab[i]) == i
  }

  /** The first positions of the candidate tokens, in vocabulary order. */
  function CandidateIndices(vocab: seq<string>, cset: set<string>): (idx: seq<nat>)
    ensures forall k :: 0 <= k < |idx| ==> idx[k] < |vocab| && vocab[idx[k]] in cset && FirstIndex(vocab, vocab[idx[k]]) == idx[k]
  {
    var idx := Filter(Indices(|vocab|), IsCandidateIndex(vocab, cset));
    assert forall k :: 0 <= k < |idx| ==> IsCandidateIndex(vocab, cset)(idx[k]) by {
      forall k | 0 <= k < |idx| ensures IsCandidateIndex(vocab, cset)(idx[k]) {
        assert idx[k] in idx;
      }
    }
    idx
  }

  function MakeCandidate(fd: FieldData, peerDocs: seq<set<string>>, i: nat): Candidate
    requires i < |fd.filterCorpus| && |fd.chi2| == |fd.filterCorpus| && |fd.odds| == |fd.filterCorpus|
  {
    var t := fd.filterCorpus[i];
    var m := Mask(t, peerDocs);
    Candidate(t, i, m, CountWhere(m, IsTrue), fd.chi2[i], fd.odds[i])
  }

  /**
   * The candidate tokens with their peer masks, document counts and table
   * values. The source enumerates a Python set, in no fixed order; the model
   * takes filter-vocabulary order, which the later ranking makes irrelevant
   * except among ties.
   */
  function Candidates(fd: FieldData, peerDocs: seq<set<string>>, own: seq<string>): seq<Candidate>
    requires |fd.chi2| == |fd.filterCorpus| && |fd.odds| == |fd.filterCorpus|
  {
    var idx := CandidateIndices(fd.filterCorpus, CandidateSet(peerDocs, own, fd.filterCorpus));
    seq(|idx|, k requires 0 <= k < |idx| => MakeCandidate(fd, peerDocs, idx[k]))
  }

  /** The selection `df > 1` and `odds > 1`. */
  predicate IsRecommendable(c: Candidate) {
    c.df > 1 && c.odds > 1.0
  }

  /** The argsort key: the chi-square table value. */
  function Pval(c: Candidate): real { c.chi2 }

  /** The selected candidates in ascending chi-square order. */
  function Ranked(fd: FieldData, peerDocs: seq<set<string>>, own: seq<string>): seq<Candidate>
    requires |fd.chi2| == |fd.filterCorpus| && |fd.odds| == |fd.filterCorpus|
  {
    SortBy(Filter(Candidates(fd, peerDocs, own), IsRecommendable), Pval)
  }

  /** One output record of a recommendation table. */
  datatype TokenSuggestion = TokenSuggestion(token: string, df: nat, pvals: real, peerTitle: seq<string>, peerLink: seq<string>)

  /** The two peer columns added to each table. */
  datatype PeerProp = PeerTitle | PeerLink
  const PeerProps: seq<PeerProp> := [PeerTitle, PeerLink]

  /**
   * A recommendation table: its rows (token, df, pvals and the peer mask
   * they were selected with) and the peer columns added so far.
   */
  datatype TokenTable = TokenTable(rows: seq<Candidate>, columns: map<PeerProp, seq<seq<string>>>)

  ghost predicate MasksFit(rows: seq<Candidate>, n: nat) {
    forall j :: 0 <= j < |rows| ==> |rows[j].docs| == n
  }

  /** The `peer_title` or `peer_link` column: for each row, the peers it was found in. */
  function PeerColumn(rows: seq<Candidate>, props: seq<string>): seq<seq<string>>
    requires MasksFit(rows, |props|)
  {
    seq(|rows|, j requires 0 <= j < |rows| => PeersWith(rows[j].docs, props))
  }

  /** `to_dict('records')[:20]` of a table with both peer columns. */
  function Records(table: TokenTable): seq<TokenSuggestion>
    requires PeerTitle in table.columns && PeerLink in table.columns
    requires |table.columns[PeerTitle]| == |table.rows| && |table.columns[PeerLink]| == |table.rows|
  {
    var rows := table.rows;
    Take(seq(|rows| , j requires 0 <= j < |rows| =>
      TokenSuggestion(rows[j].token, rows[j].df, rows[j].chi2, table.columns[PeerTitle][j], table.columns[PeerLink][j])), MaxTokens)
  }

  /** Both peer columns of a table with the given rows. */
  function FullColumns(rows: seq<Candidate>, titles: seq<string>, links: seq<string>): map<PeerProp, seq<seq<string>>>
    requires MasksFit(rows, |titles|) && |titles| == |links|
  {
    map[PeerTitle := PeerColumn(rows, titles), PeerLink := PeerColumn(rows, links)]
  }

  /** A table after the first `n` of the two peer columns have been added. */
  function WithPeerColumns(rows: seq<Candidate>, titles: seq<string>, links: seq<string>, n: nat): TokenTable
    requires MasksFit(rows, |titles|) && |titles| == |links| && n <= 2
  {
    TokenTable(rows,
      if n == 0 then map[]
      else if n == 1 then map[PeerTitle := PeerColumn(rows, titles)]
      else FullColumns(rows, titles, links))
  }

  function PropValues(q: PeerProp, titles: seq<string>, links: seq<string>): seq<string> {
    match q
    case PeerTitle => titles
    case PeerLink => links
  }

  /**
   * How many peer columns the table of the `j`-th field has once `pi`
   * columns of the `ci`-th field have been added.
   */
  function Stage(j: nat, ci: nat, pi: nat): nat
    requires pi <= 2
  {
    if j < ci then 2 else if j == ci then pi else 0
  }

  /** The recommendations of one field, as the source's tables end up. */
  function FieldRecommendations(fd: FieldData, peers: seq<nat>, own: seq<string>, titles: seq<string>, links: seq<string>): seq<TokenSuggestion>
    requires |fd.chi2| == |fd.filterCorpus| && |fd.odds| == |fd.filterCorpus|
    requires PeersIn(peers, |fd.tokens|) && |titles| == |peers| && |links| == |peers|
  {
    var peerDocs := PeerDocs(fd.tokens, peers);
    var rows := Ranked(fd, peerDocs, own);
    RankedMasksFit(fd, peerDocs, own);
    Records(TokenTable(rows, FullColumns(rows, titles, links)))
  }

  /** A table of the ranked rows with both peer columns gives the field's recommendations. */
  lemma FieldRecords(fd: FieldData, peers: seq<nat>, own: seq<string>, titles: seq<string>, links: seq<string>)
    requires |fd.chi2| == |fd.filterCorpus| && |fd.odds| == |fd.filterCorpus|
    requires PeersIn(peers, |fd.tokens|) && |titles| == |peers| && |links| == |peers|
    ensures var rows := Ranked(fd, PeerDocs(fd.tokens, peers), own);
      MasksFit(rows, |titles|) &&
      Records(TokenTable(rows, FullColumns(rows, titles, links))) == FieldRecommendations(fd, peers, own, titles, links)
  {
    RankedMasksFit(fd, PeerDocs(fd.tokens, peers), own);
  }

  /** The `title` and `link` of the peers (`peer_props`). */
  function PeerTitles(ds: seq<Record>, peers: seq<nat>): seq<string>
    requires PeersIn(peers, |ds|)
  {
    seq(|peers|, k requires 0 <= k < |peers| => ds[peers[k]].title)
  }

  function PeerLinks(ds: seq<Record>, peers: seq<nat>): seq<string>
    requires PeersIn(peers, |ds|)
  {
    seq(|peers|, k requires 0 <= k < |peers| => ds[peers[k]].link)
  }

  /** get_text_suggestion, as a function of the dataset, artifacts, peers and own tokens. */
  function TextSuggestionFor(ds: seq<Record>, a: PerField<FieldData>, peers: seq<nat>, own: PerField<seq<string>>): (r: map<Field, seq<TokenSuggestion>>)
    requires ArtifactsFit(a, |ds|) && PeersIn(peers, |ds|)
    ensures r.Keys == FieldSet
  {
    var titles := PeerTitles(ds, peers);
    var links := PeerLinks(ds, peers);
    map[
      Title := FieldRecommendations(a.title, peers, own.title, titles, links),
      Description := FieldRecommendations(a.description, peers, own.description, titles, links),
      Content := FieldRecommendations(a.content, peers, own.content, titles, links)]
  }

  /** The entry of one field. */
  lemma TextSuggestionAt(ds: seq<Record>, a: PerField<FieldData>, peers: seq<nat>, own: PerField<seq<string>>, f: Field)
    requires ArtifactsFit(a, |ds|) && PeersIn(peers, |ds|)
    ensures FieldFits(a.Get(f), |ds|)
    ensures TextSuggestionFor(ds, a, peers, own)[f] == FieldRecommendations(a.Get(f), peers, own.Get(f), PeerTitles(ds, peers), PeerLinks(ds, peers))
  {
  }

  // --- facts about the candidates ---

  /** What every candidate carries, stated on its own. */
  ghost predicate WellBuilt(c: Candidate, fd: FieldData, peerDocs: seq<set<string>>, own: seq<string>) {
    && c.token in CandidateSet(peerDocs, own, fd.filterCorpus)
    && c.index == FirstIndex(fd.filterCorpus, c.token)
    && c.index < |fd.chi2| && c.index < |fd.odds|
    && c.docs == Mask(c.token, peerDocs)
    && c.df == CountWhere(c.docs, IsTrue)
    && c.chi2 == fd.chi2[c.index]
    && c.odds == fd.odds[c.index]
  }

  lemma CandidatesWellBuilt(fd: FieldData, peerDocs: seq<set<string>>, own: seq<string>, c: Candidate)
    requires |fd.chi2| == |fd.filterCorpus| && |fd.odds| == |fd.filterCorpus|
    requires c in Candidates(fd, peerDocs, own)
    ensures WellBuilt(c, fd, peerDocs, own)
  {
    var idx := CandidateIndices(fd.filterCorpus, CandidateSet(peerDocs, own, fd.filterCorpus));
    var k :| 0 <= k < |idx| && Candidates(fd, peerDocs, own)[k] == c;
  }

  lemma RankedWellBuilt(fd: FieldData, peerDocs: seq<set<string>>, own: seq<string>, c: Candidate)
    requires |fd.chi2| == |fd.filterCorpus| && |fd.odds| == |fd.filterCorpus|
    requires c in Ranked(fd, peerDocs, own)
    ensures WellBuilt(c, fd, peerDocs, own) && IsRecommendable(c)
  {
    var sel := Filter(Candidates(fd, peerDocs, own), IsRecommendable);
    SameElements(sel, Ranked(fd, peerDocs, own), c);
    CandidatesWellBuilt(fd, peerDocs, own, c);
  }

  lemma RankedMasksFit(fd: FieldData, peerDocs: seq<set<string>>, own: seq<string>)
    requires |fd.chi2| == |fd.filterCorpus| && |fd.odds| == |fd.filterCorpus|
    ensures MasksFit(Ranked(fd, peerDocs, own), |peerDocs|)
  {
    var rows := Ranked(fd, peerDocs, own);
    forall j | 0 <= j < |rows| ensures |rows[j].docs| == |peerDocs| {
      RankedWellBuilt(fd, peerDocs, own, rows[j]);
    }
  }

  /** The summed mask counts the documents that contain the token. */
  lemma {:induction false} MaskCount(t: string, peerDocs: seq<set<string>>)
    ensures CountWhere(Mask(t, peerDocs), IsTrue) == DocCount(t, peerDocs)
  {
    if peerDocs != [] {
      MaskCount(t, peerDocs[1..]);
      assert Mask(t, peerDocs)[1..] == Mask(t, peerDocs[1..]);
    }
  }

  /** Mask indexing lists one peer per true entry. */
  lemma {:induction false} PeersWithLength(mask: seq<bool>, props: seq<string>)
    requires |mask| == |props|
    ensures |PeersWith(mask, props)| == CountWhere(mask, IsTrue)
  {
    if mask != [] {
      PeersWithLength(mask[1..], props[1..]);
    }
  }

  /** Each listed peer is one whose document holds the token. */
  lemma {:induction false} PeersWithMember(mask: seq<bool>, props: seq<string>, x: string)
    requires |mask| == |props|
    ensures x in PeersWith(mask, props) <==> exists k :: 0 <= k < |mask| && mask[k] && props[k] == x
  {
    if mask != [] {
      PeersWithMember(mask[1..], props[1..], x);
      if exists k :: 0 <= k < |mask| && mask[k] && props[k] == x {
        var k :| 0 <= k < |mask| && mask[k] && props[k] == x;
        if k > 0 { assert mask[1..][k - 1] && props[1..][k - 1] == x; }
      }
      if exists k :: 0 <= k < |mask[1..]| && mask[1..][k] && props[1..][k] == x {
        var k :| 0 <= k < |mask[1..]| && mask[1..][k] && props[1..][k] == x;
        assert mask[k + 1] && props[k + 1] == x;
      }
    }
  }

  // --- properties of one field's recommendations ---

  /** Entry `j` of the recommendations is row `j` of the ranked candidates. */
  lemma RecommendationAt(fd: FieldData, peers: seq<nat>, own: seq<string>, titles: seq<string>, links: seq<string>, j: nat)
    requires |fd.chi2| == |fd.filterCorpus| && |fd.odds| == |fd.filterCorpus|
    requires PeersIn(peers, |fd.tokens|) && |titles| == |peers| && |links| == |peers|
    requires j < |FieldRecommendations(fd, peers, own, titles, links)|
    ensures var rows := Ranked(fd, PeerDocs(fd.tokens, peers), own);
      j < |rows| && j < MaxTokens && |rows[j].docs| == |peers| &&
      FieldRecommendations(fd, peers, own, titles, links)[j] ==
        TokenSuggestion(rows[j].token, rows[j].df, rows[j].chi2, PeersWith(rows[j].docs, titles), PeersWith(rows[j].docs, links))
  {
    RankedMasksFit(fd, PeerDocs(fd.tokens, peers), own);
  }

  /**
   * Every recommended token occurs in some peer, not in the project, and in
   * the filter vocabulary; its df is the number of peers containing it and
   * exceeds 1; its odds ratio exceeds 1; its pvals is its chi-square value;
   * and its peer lists name exactly the peers containing it, one per df.
   */
  lemma RecommendationSound(fd: FieldData, peers: seq<nat>, own: seq<string>, titles: seq<string>, links: seq<string>, j: nat)
    requires |fd.chi2| == |fd.filterCorpus| && |fd.odds| == |fd.filterCorpus|
    requires PeersIn(peers, |fd.tokens|) && |titles| == |peers| && |links| == |peers|
    requires j < |FieldRecommendations(fd, peers, own, titles, links)|
    ensures var e := FieldRecommendations(fd, peers, own, titles, links)[j];
      var peerDocs := PeerDocs(fd.tokens, peers);
      && (exists k :: 0 <= k < |peers| && e.token in fd.tokens[peers[k]])
      && e.token !in own
      && e.token in fd.filterCorpus
      && e.df == DocCount(e.token, peerDocs) && e.df > 1
      && fd.odds[FirstIndex(fd.filterCorpus, e.token)] > 1.0
      && e.pvals == fd.chi2[FirstIndex(fd.filterCorpus, e.token)]
      && e.peerTitle == PeersWith(Mask(e.token, peerDocs), titles) && |e.peerTitle| == e.df
      && e.peerLink == PeersWith(Mask(e.token, peerDocs), links) && |e.peerLink| == e.df
  {
    var peerDocs := PeerDocs(fd.tokens, peers);
    var rows := Ranked(fd, peerDocs, own);
    RecommendationAt(fd, peers, own, titles, links, j);
    var c := rows[j];
    RankedWellBuilt(fd, peerDocs, own, c);
    MaskCount(c.token, peerDocs);
    PeersWithLength(c.docs, titles);
    PeersWithLength(c.docs, links);
    assert c.token in UnionAll(peerDocs);
    var k :| 0 <= k < |peerDocs| && c.token in peerDocs[k];
    assert c.token in fd.tokens[peers[k]];
  }

  /** The recommendations come in non-decreasing pvals, at most 20 of them. */
  lemma RecommendationsOrdered(fd: FieldData, peers: seq<nat>, own: seq<string>, titles: seq<string>, links: seq<string>)
    requires |fd.chi2| == |fd.filterCorpus| && |fd.odds| == |fd.filterCorpus|
    requires PeersIn(peers, |fd.tokens|) && |titles| == |peers| && |links| == |peers|
    ensures var r := FieldRecommendations(fd, peers, own, titles, links);
      |r| <= MaxTokens && forall a, b :: 0 <= a < b < |r| ==> r[a].pvals <= r[b].pvals
  {
    var r := FieldRecommendations(fd, peers, own, titles, links);
    var rows := Ranked(fd, PeerDocs(fd.tokens, peers), own);
    forall a, b | 0 <= a < b < |r| ensures r[a].pvals <= r[b].pvals {
      RecommendationAt(fd, peers, own, titles, links, a);
      RecommendationAt(fd, peers, own, titles, links, b);
      assert Pval(rows[a]) <= Pval(rows[b]);
    }
  }

  /** A candidate token that meets the selection is among the ranked rows. */
  lemma SelectedIsRanked(fd: FieldData, peerDocs: seq<set<string>>, own: seq<string>, t: string)
    requires |fd.chi2| == |fd.filterCorpus| && |fd.odds| == |fd.filterCorpus|
    requires t in CandidateSet(peerDocs, own, fd.filterCorpus)
    requires DocCount(t, peerDocs) > 1 && fd.odds[FirstIndex(fd.filterCorpus, t)] > 1.0
    ensures MakeCandidate(fd, peerDocs, FirstIndex(fd.filterCorpus, t)) in Ranked(fd, peerDocs, own)
  {
    var vocab := fd.filterCorpus;
    var cset := CandidateSet(peerDocs, own, vocab);
    var i := FirstIndex(vocab, t);
    var idx := CandidateIndices(vocab, cset);
    assert IsCandidateIndex(vocab, cset)(i);
    assert Indices(|vocab|)[i] == i;
    FilterKeeps(Indices(|vocab|), IsCandidateIndex(vocab, cset), i);
    var k :| 0 <= k < |idx| && idx[k] == i;
    var cands := Candidates(fd, peerDocs, own);
    var c := MakeCandidate(fd, peerDocs, i);
    assert cands[k] == c;
    MaskCount(t, peerDocs);
    FilterKeeps(cands, IsRecommendable, c);
    SameElements(Filter(cands, IsRecommendable), Ranked(fd, peerDocs, own), c);
  }

  /**
   * Nothing that meets the selection is missed unless the table is full of
   * tokens whose chi-square value is no larger.
   */
  lemma RecommendationsComplete(fd: FieldData, peers: seq<nat>, own: seq<string>, titles: seq<string>, links: seq<string>, t: string)
    requires |fd.chi2| == |fd.filterCorpus| && |fd.odds| == |fd.filterCorpus|
    requires PeersIn(peers, |fd.tokens|) && |titles| == |peers| && |links| == |peers|
    requires t in CandidateSet(PeerDocs(fd.tokens, peers), own, fd.filterCorpus)
    requires DocCount(t, PeerDocs(fd.tokens, peers)) > 1 && fd.odds[FirstIndex(fd.filterCorpus, t)] > 1.0
    ensures var r := FieldRecommendations(fd, peers, own, titles, links);
      (exists j :: 0 <= j < |r| && r[j].token == t) ||
      (|r| == MaxTokens && forall j :: 0 <= j < |r| ==> r[j].pvals <= fd.chi2[FirstIndex(fd.filterCorpus, t)])
  {
    var peerDocs := PeerDocs(fd.tokens, peers);
    var i := FirstIndex(fd.filterCorpus, t);
    var c := MakeCandidate(fd, peerDocs, i);
    SelectedIsRanked(fd, peerDocs, own, t);
    var rows := Ranked(fd, peerDocs, own);
    var r := FieldRecommendations(fd, peers, own, titles, links);
    var j :| 0 <= j < |rows| && rows[j] == c;
    if j < |r| {
      RecommendationAt(fd, peers, own, titles, links, j);
      assert r[j].token == t;
    } else {
      assert |r| == MaxTokens;
      forall m | 0 <= m < |r| ensures r[m].pvals <= fd.chi2[i] {
        RecommendationAt(fd, peers, own, titles, links, m);
        assert Pval(rows[m]) <= Pval(rows[j]);
      }
    }
  }

  /** No token is recommended twice. */
  lemma RecommendationsDistinct(fd: FieldData, peers: seq<nat>, own: seq<string>, titles: seq<string>, links: seq<string>)
    requires |fd.chi2| == |fd.filterCorpus| && |fd.odds| == |fd.filterCorpus|
    requires PeersIn(peers, |fd.tokens|) && |titles| == |peers| && |links| == |peers|
    ensures var r := FieldRecommendations(fd, peers, own, titles, links);
      forall a, b :: 0 <= a < b < |r| ==> r[a].token != r[b].token
  {
    var peerDocs := PeerDocs(fd.tokens, peers);
    var vocab := fd.filterCorpus;
    var cset := CandidateSet(peerDocs, own, vocab);
    var idx := CandidateIndices(vocab, cset);
    var cands := Candidates(fd, peerDocs, own);
    IndicesDistinct(|vocab|);
    FilterDistinct(Indices(|vocab|), IsCandidateIndex(vocab, cset));
    assert Distinct(cands) by {
      forall a, b | 0 <= a < b < |cands| ensures cands[a] != cands[b] {
        assert cands[a].index == idx[a] && cands[b].index == idx[b];
      }
    }
    var sel := Filter(cands, IsRecommendable);
    FilterDistinct(cands, IsRecommendable);
    var rows := Ranked(fd, peerDocs, own);
    PermutationDistinct(sel, rows);
    var r := FieldRecommendations(fd, peers, own, titles, links);
    forall a, b | 0 <= a < b < |r| ensures r[a].token != r[b].token {
      RecommendationAt(fd, peers, own, titles, links, a);
      RecommendationAt(fd, peers, own, titles, links, b);
      if rows[a].token == rows[b].token {
        RankedWellBuilt(fd, peerDocs, own, rows[a]);
        RankedWellBuilt(fd, peerDocs, own, rows[b]);
      }
    }
  }

  // ---------------------------------------------------------------------
  // The failure of lines 73-81 on an empty candidate list
  // ---------------------------------------------------------------------

  /** A field whose candidate list is empty after the subtraction and the vocabulary filter. */
  predicate NoCandidates(fd: FieldData, peers: seq<nat>, own: seq<string>)
    requires |fd.chi2| == |fd.filterCorpus| && |fd.odds| == |fd.filterCorpus| && PeersIn(peers, |fd.tokens|)
  {
    Candidates(fd, PeerDocs(fd.tokens, peers), own) == []
  }

  /**
   * get_text_suggestion as written: the masks of an empty candidate list
   * form a one-dimensional empty array, and `sum(axis=1)` on it raises
   * instead of giving an empty table.
   */
  function TextSuggestionAsWritten(ds: seq<Record>, a: PerField<FieldData>, peers: seq<nat>, own: PerField<seq<string>>): (r: Result<map<Field, seq<TokenSuggestion>>, SuggestError>)
    requires ArtifactsFit(a, |ds|) && PeersIn(peers, |ds|)
    ensures r.Err? ==> r.error == AxisError
    ensures r.Err? <==>
      (NoCandidates(a.title, peers, own.title) || NoCandidates(a.description, peers, own.description)
       || NoCandidates(a.content, peers, own.content))
    ensures r.Ok? ==> r.value == TextSuggestionFor(ds, a, peers, own)
  {
    if NoCandidates(a.title, peers, own.title) || NoCandidates(a.description, peers, own.description)
      || NoCandidates(a.content, peers, own.content)
    then Err(AxisError)
    else Ok(TextSuggestionFor(ds, a, peers, own))
  }

  /**
   * A field has no candidate exactly when every token of every peer that is
   * in the filter vocabulary is one of the project's own tokens.
   */
  lemma NoCandidatesExactly(fd: FieldData, peers: seq<nat>, own: seq<string>)
    requires |fd.chi2| == |fd.filterCorpus| && |fd.odds| == |fd.filterCorpus| && PeersIn(peers, |fd.tokens|)
    ensures NoCandidates(fd, peers, own) <==>
      forall k, t :: 0 <= k < |peers| && t in fd.tokens[peers[k]] && t in fd.filterCorpus ==> t in own
  {
    var peerDocs := PeerDocs(fd.tokens, peers);
    var vocab := fd.filterCorpus;
    var cset := CandidateSet(peerDocs, own, vocab);
    if exists k, t :: 0 <= k < |peers| && t in fd.tokens[peers[k]] && t in vocab && t !in own {
      var k, t :| 0 <= k < |peers| && t in fd.tokens[peers[k]] && t in vocab && t !in own;
      assert t in peerDocs[k];
      assert t in cset;
      var i := FirstIndex(vocab, t);
      assert IsCandidateIndex(vocab, cset)(i);
      assert Indices(|vocab|)[i] == i;
      FilterKeeps(Indices(|vocab|), IsCandidateIndex(vocab, cset), i);
      assert |CandidateIndices(vocab, cset)| > 0;
    } else {
      assert cset == {} by {
        forall t | t in UnionAll(peerDocs) && t in vocab ensures t in own {
          var k :| 0 <= k < |peerDocs| && t in peerDocs[k];
          assert t in fd.tokens[peers[k]];
        }
      }
      FilterNonePass(Indices(|vocab|), IsCandidateIndex(vocab, cset));
    }
  }

  /** Every token of every peer is one of the project's own tokens. */
  ghost predicate Covered(fd: FieldData, peers: seq<nat>, own: seq<string>)
    requires PeersIn(peers, |fd.tokens|)
  {
    forall k, t :: 0 <= k < |peers| && t in fd.tokens[peers[k]] ==> t in own
  }

  lemma CoveredHasNoCandidates(fd: FieldData, peers: seq<nat>, own: seq<string>)
    requires |fd.chi2| == |fd.filterCorpus| && |fd.odds| == |fd.filterCorpus| && PeersIn(peers, |fd.tokens|)
    requires Covered(fd, peers, own)
    ensures NoCandidates(fd, peers, own)
  {
    var peerDocs := PeerDocs(fd.tokens, peers);
    var cset := CandidateSet(peerDocs, own, fd.filterCorpus);
    assert cset == {} by {
      forall t | t in UnionAll(peerDocs) ensures t in own {
        var k :| 0 <= k < |peerDocs| && t in peerDocs[k];
        assert t in fd.tokens[peers[k]];
      }
    }
    FilterNonePass(Indices(|fd.filterCorpus|), IsCandidateIndex(fd.filterCorpus, cset));
  }

  /**
   * When in some field every peer token is one of the project's own (say,
   * the project is in the dataset and is its only peer), the source raises.
   */
  lemma CoveredPeersRaiseAxisError(ds: seq<Record>, a: PerField<FieldData>, peers: seq<nat>, own: PerField<seq<string>>)
    requires ArtifactsFit(a, |ds|) && PeersIn(peers, |ds|)
    requires Covered(a.title, peers, own.title) || Covered(a.description, peers, own.description)
      || Covered(a.content, peers, own.content)
    ensures TextSuggestionAsWritten(ds, a, peers, own) == Err(AxisError)
  {
    if Covered(a.title, peers, own.title) {
      CoveredHasNoCandidates(a.title, peers, own.title);
    } else if Covered(a.description, peers, own.description) {
      CoveredHasNoCandidates(a.description, peers, own.description);
    } else {
      CoveredHasNoCandidates(a.content, peers, own.content);
    }
  }

  /** On the same inputs the corrected function gives that field an empty table. */
  lemma CoveredFieldGetsEmptyTable(ds: seq<Record>, a: PerField<FieldData>, peers: seq<nat>, own: PerField<seq<string>>, f: Field)
    requires ArtifactsFit(a, |ds|) && PeersIn(peers, |ds|)
    requires FieldFits(a.Get(f), |ds|) && Covered(a.Get(f), peers, own.Get(f))
    ensures TextSuggestionFor(ds, a, peers, own)[f] == []
  {
    CoveredHasNoCandidates(a.Get(f), peers, own.Get(f));
    TextSuggestionAt(ds, a, peers, own, f);
    assert Ranked(a.Get(f), PeerDocs(a.Get(f).tokens, peers), own.Get(f)) == [];
  }

  /** The corrected function answers every field, never with more than 20 tokens. */
  lemma TextSuggestionTotal(ds: seq<Record>, a: PerField<FieldData>, peers: seq<nat>, own: PerField<seq<string>>)
    requires ArtifactsFit(a, |ds|) && PeersIn(peers, |ds|)
    ensures TextSuggestionFor(ds, a, peers, own).Keys == FieldSet
    ensures forall f :: f in FieldSet ==> |TextSuggestionFor(ds, a, peers, own)[f]| <= MaxTokens
  {
  }

  // ---------------------------------------------------------------------
  // Metadata suggestion
  // ---------------------------------------------------------------------

  function RealKey(x: real): real { x }

  /** The column in ascending order. */
  function Ascending(xs: seq<real>): (s: seq<real>)
    ensures multiset(s) == multiset(xs) && |s| == |xs|
    ensures forall i, j :: 0 <= i < j < |s| ==> s[i] <= s[j]
  {
    var s := SortBy(xs, RealKey);
    assert forall i, j :: 0 <= i < j < |s| ==> RealKey(s[i]) <= RealKey(s[j]);
    s
  }

  /** Linear interpolation at fractional position `h` of a sorted column. */
  function Interpolate(s: seq<real>, h: real): real
    requires s != [] && 0.0 <= h <= (|s| - 1) as real
  {
    var lo := h.Floor;
    var frac := h - lo as real;
    if lo + 1 < |s| then s[lo] + frac * (s[lo + 1] - s[lo]) else s[lo]
  }

  /** Arithmetic aid for the interpolation proofs (no source counterpart): a fraction of a non-negative amount. */
  lemma ScaleBetween(a: real, q: real)
    requires a >= 0.0 && 0.0 <= q <= 1.0
    ensures 0.0 <= a * q <= a
  {
  }

  /**
   * pandas `quantile(q)` with its default linear interpolation (and so
   * `describe`'s quartiles and `median`); NaN, here None, on an empty column.
   */
  function Quantile(xs: seq<real>, q: real): (r: Option<real>)
    requires 0.0 <= q <= 1.0
    ensures r.None? <==> xs == []
  {
    if xs == [] then None
    else Some(Interpolate(Ascending(xs), Position(|xs|, q)))
  }

  /** The fractional index `(n - 1) * q` that pandas interpolates at. */
  function Position(n: nat, q: real): (h: real)
    requires n > 0 && 0.0 <= q <= 1.0
    ensures 0.0 <= h <= (n - 1) as real
  {
    ScaleBetween((n - 1) as real, q);
    (n - 1) as real * q
  }

  function Median(xs: seq<real>): Option<real> {
    Quantile(xs, 0.5)
  }

  /** Arithmetic aid (no source counterpart): a fraction of a non-negative gap grows with the fraction. */
  lemma ScaleMono(d: real, f1: real, f2: real)
    requires d >= 0.0 && 0.0 <= f1 <= f2
    ensures f1 * d <= f2 * d
  {
    assert f2 * d - f1 * d == (f2 - f1) * d;
  }

  /** The interpolated value lies between the two neighbouring entries. */
  lemma InterpolateBetween(s: seq<real>, h: real)
    requires s != [] && 0.0 <= h <= (|s| - 1) as real
    requires forall i, j :: 0 <= i < j < |s| ==> s[i] <= s[j]
    ensures 0 <= h.Floor < |s|
    ensures s[h.Floor] <= Interpolate(s, h)
    ensures h.Floor + 1 < |s| ==> Interpolate(s, h) <= s[h.Floor + 1]
    ensures h.Floor + 1 == |s| ==> Interpolate(s, h) == s[h.Floor]
  {
    var lo := h.Floor;
    var frac := h - lo as real;
    if lo + 1 < |s| {
      var d := s[lo + 1] - s[lo];
      assert Interpolate(s, h) == s[lo] + frac * d;
      ScaleMono(d, 0.0, frac);
      ScaleMono(d, frac, 1.0);
    }
  }

  /** The value a fraction `f` of the way from entry `lo` to the next one. */
  function Between(s: seq<real>, lo: nat, f: real): real
    requires lo + 1 < |s|
  {
    s[lo] + f * (s[lo + 1] - s[lo])
  }

  /** Arithmetic aid (no source counterpart): the interpolation step grows with the fraction. */
  lemma BetweenMono(s: seq<real>, lo: nat, f1: real, f2: real)
    requires lo + 1 < |s| && s[lo] <= s[lo + 1] && 0.0 <= f1 <= f2
    ensures Between(s, lo, f1) <= Between(s, lo, f2)
  {
    ScaleMono(s[lo + 1] - s[lo], f1, f2);
  }

  /** Interpolation is monotone in the position. */
  lemma InterpolateMono(s: seq<real>, h1: real, h2: real)
    requires s != [] && 0.0 <= h1 <= h2 <= (|s| - 1) as real
    requires forall i, j :: 0 <= i < j < |s| ==> s[i] <= s[j]
    ensures Interpolate(s, h1) <= Interpolate(s, h2)
  {
    InterpolateBetween(s, h1);
    InterpolateBetween(s, h2);
    var lo1, lo2 := h1.Floor, h2.Floor;
    if lo1 == lo2 {
      if lo1 + 1 < |s| {
        assert s[lo1] <= s[lo1 + 1];
        assert Interpolate(s, h1) == Between(s, lo1, h1 - lo1 as real);
        assert Interpolate(s, h2) == Between(s, lo1, h2 - lo1 as real);
        BetweenMono(s, lo1, h1 - lo1 as real, h2 - lo1 as real);
      }
    } else {
      assert lo1 < lo2;
      assert s[lo1 + 1] <= s[lo2];
    }
  }

  /** At a whole position the interpolation is the entry there. */
  lemma InterpolateAtIndex(s: seq<real>, k: nat)
    requires k < |s|
    ensures (k as real).Floor == k && Interpolate(s, k as real) == s[k]
  {
  }

  /** The smallest entry of a non-empty column is one of its values and below all of them. */
  lemma AscendingFirstIsMinimum(xs: seq<real>)
    requires xs != []
    ensures Ascending(xs)[0] in xs && forall x :: x in xs ==> Ascending(xs)[0] <= x
  {
    var s := Ascending(xs);
    SameElements(xs, s, s[0]);
    forall x | x in xs ensures s[0] <= x {
      SameElements(xs, s, x);
      var k :| 0 <= k < |s| && s[k] == x;
      if k > 0 { assert s[0] <= s[k]; }
    }
  }

  lemma AscendingLastIsMaximum(xs: seq<real>)
    requires xs != []
    ensures Ascending(xs)[|xs| - 1] in xs && forall x :: x in xs ==> x <= Ascending(xs)[|xs| - 1]
  {
    var s := Ascending(xs);
    SameElements(xs, s, s[|s| - 1]);
    forall x | x in xs ensures x <= s[|s| - 1] {
      SameElements(xs, s, x);
      var k :| 0 <= k < |s| && s[k] == x;
      if k < |s| - 1 { assert s[k] <= s[|s| - 1]; }
    }
  }

  /** `min` and `max` of `describe`: quantiles 0 and 1 are the extreme values. */
  lemma QuantileExtremes(xs: seq<real>)
    requires xs != []
    ensures Quantile(xs, 0.0).value in xs && forall x :: x in xs ==> Quantile(xs, 0.0).value <= x
    ensures Quantile(xs, 1.0).value in xs && forall x :: x in xs ==> x <= Quantile(xs, 1.0).value
  {
    var n := |xs|;
    assert Position(n, 0.0) == 0 as real;
    assert Position(n, 1.0) == (n - 1) as real;
    InterpolateAtIndex(Ascending(xs), 0);
    InterpolateAtIndex(Ascending(xs), n - 1);
    AscendingFirstIsMinimum(xs);
    AscendingLastIsMaximum(xs);
  }

  /** The interpolation position grows with `q`. */
  lemma PositionMono(n: nat, q1: real, q2: real)
    requires n > 0 && 0.0 <= q1 <= q2 <= 1.0
    ensures Position(n, q1) <= Position(n, q2)
  {
    ScaleMono((n - 1) as real, q1, q2);
  }

  /** Quantiles grow with `q`, so the box statistics are ordered. */
  lemma QuantileMono(xs: seq<real>, q1: real, q2: real)
    requires xs != [] && 0.0 <= q1 <= q2 <= 1.0
    ensures Quantile(xs, q1).value <= Quantile(xs, q2).value
  {
    PositionMono(|xs|, q1, q2);
    InterpolateMono(Ascending(xs), Position(|xs|, q1), Position(|xs|, q2));
  }

  /** The median position is the middle index, or halfway between the two middle ones. */
  lemma MedianPosition(n: nat)
    requires n > 0
    ensures n % 2 == 1 ==> Position(n, 0.5) == (n / 2) as real
    ensures n % 2 == 0 ==> Position(n, 0.5) == (n / 2 - 1) as real + 0.5 && Position(n, 0.5).Floor == n / 2 - 1
  {
  }

  /** The median is the middle value, or the mean of the two middle values. */
  lemma MedianIsMiddle(xs: seq<real>)
    requires xs != []
    ensures var s := Ascending(xs);
      var n := |xs|;
      Median(xs).value == if n % 2 == 1 then s[n / 2] else (s[n / 2 - 1] + s[n / 2]) / 2.0
  {
    var n := |xs|;
    MedianPosition(n);
    if n % 2 == 1 {
      InterpolateAtIndex(Ascending(xs), n / 2);
    }
  }

  /** The statistics of one metadata column. */
  datatype MetaStat = MetaStat(
    successMedian: Option<real>, failureMedian: Option<real>,
    successGreater: nat, successLess: nat, projectValue: real,
    boxMin: Option<real>, box25: Option<real>, box50: Option<real>, box75: Option<real>, boxMax: Option<real>)

  function MetaValues(recs: seq<Record>, c: MetaColumn): seq<real> {
    seq(|recs|, k requires 0 <= k < |recs| => recs[k].Meta(c))
  }

  function SuccessfulAbove(c: MetaColumn, v: real): Record -> bool {
    (r: Record) => r.Success() && r.Meta(c) > v
  }

  function SuccessfulBelow(c: MetaColumn, v: real): Record -> bool {
    (r: Record) => r.Success() && r.Meta(c) < v
  }

  /** One entry of get_meta_suggestion's `metadata` map. */
  function MetaStatFor(recs: seq<Record>, project: ProjectFacts, c: MetaColumn): MetaStat {
    var col := MetaValues(recs, c);
    var v := project.Meta(c);
    MetaStat(
      Median(MetaValues(Filter(recs, IsSuccessful), c)),
      Median(MetaValues(Filter(recs, IsFailed), c)),
      CountWhere(recs, SuccessfulAbove(c, v)),
      CountWhere(recs, SuccessfulBelow(c, v)),
      v,
      Quantile(col, 0.0), Quantile(col, 0.25), Quantile(col, 0.5), Quantile(col, 0.75), Quantile(col, 1.0))
  }

  /** get_meta_suggestion: one entry per metadata column. */
  function MetaSuggestion(recs: seq<Record>, project: ProjectFacts): (m: map<MetaColumn, MetaStat>)
    ensures m.Keys == MetaColumnSet
  {
    map c | c in MetaColumnSet :: MetaStatFor(recs, project, c)
  }

  /**
   * With at least one peer the five box values exist, are ordered, and run
   * from the smallest to the largest peer value, with the median in the middle.
   */
  lemma MetaBoxOrdered(recs: seq<Record>, project: ProjectFacts, c: MetaColumn)
    requires recs != []
    ensures var m := MetaStatFor(recs, project, c);
      && m.boxMin.Some? && m.box25.Some? && m.box50.Some? && m.box75.Some? && m.boxMax.Some?
      && m.boxMin.value <= m.box25.value <= m.box50.value <= m.box75.value <= m.boxMax.value
      && m.box50 == Median(MetaValues(recs, c))
      && (forall k :: 0 <= k < |recs| ==> m.boxMin.value <= recs[k].Meta(c) <= m.boxMax.value)
      && m.boxMin.value in MetaValues(recs, c) && m.boxMax.value in MetaValues(recs, c)
  {
    var col := MetaValues(recs, c);
    var m := MetaStatFor(recs, project, c);
    assert m.boxMin == Quantile(col, 0.0) && m.box25 == Quantile(col, 0.25) && m.box50 == Quantile(col, 0.5);
    assert m.box75 == Quantile(col, 0.75) && m.boxMax == Quantile(col, 1.0);
    BoxOrdered(col);
    forall k | 0 <= k < |recs| ensures m.boxMin.value <= recs[k].Meta(c) <= m.boxMax.value {
      assert col[k] == recs[k].Meta(c) && col[k] in col;
    }
  }

  /** The five box values of a non-empty column are ordered and run from its minimum to its maximum. */
  lemma BoxOrdered(col: seq<real>)
    requires col != []
    ensures Quantile(col, 0.0).value <= Quantile(col, 0.25).value <= Quantile(col, 0.5).value
      <= Quantile(col, 0.75).value <= Quantile(col, 1.0).value
    ensures Quantile(col, 0.0).value in col && Quantile(col, 1.0).value in col
    ensures forall x :: x in col ==> Quantile(col, 0.0).value <= x <= Quantile(col, 1.0).value
  {
    QuantileMono(col, 0.0, 0.25);
    QuantileMono(col, 0.25, 0.5);
    QuantileMono(col, 0.5, 0.75);
    QuantileMono(col, 0.75, 1.0);
    QuantileExtremes(col);
  }

  /**
   * success_greater and success_less count distinct successful peers: together
   * no more than the successful peers. A median is NaN exactly when its group
   * is empty.
   */
  lemma MetaCountsBounded(recs: seq<Record>, project: ProjectFacts, c: MetaColumn)
    ensures var m := MetaStatFor(recs, project, c);
      && m.successGreater + m.successLess <= CountWhere(recs, IsSuccessful)
      && m.projectValue == project.Meta(c)
      && (m.successMedian.None? <==> CountWhere(recs, IsSuccessful) == 0)
      && (m.failureMedian.None? <==> CountWhere(recs, IsFailed) == 0)
  {
    var v := project.Meta(c);
    CountWhereDisjoint(recs, SuccessfulAbove(c, v), SuccessfulBelow(c, v), IsSuccessful);
  }

  // ---------------------------------------------------------------------
  // Category suggestion
  // ---------------------------------------------------------------------

  /** How often `v` occurs in `vals`. */
  function Occurrences(vals: seq<string>, v: string): (n: nat)
    ensures n <= |vals|
  {
    if vals == [] then 0 else (if vals[0] == v then 1 else 0) + Occurrences(vals[1..], v)
  }

  lemma {:induction false} OccurrencesPositive(vals: seq<string>, v: string)
    requires v in vals
    ensures Occurrences(vals, v) > 0
  {
    if vals[0] != v {
      OccurrencesPositive(vals[1..], v);
    }
  }

  /**
   * The head of `value_counts`: a value of `cands` occurring most often in
   * `vals`. Ties may come out in any order; the model takes the first one.
   */
  function MostCommon(vals: seq<string>, cands: seq<string>): (m: string)
    requires cands != []
    ensures m in cands && forall w :: w in cands ==> Occurrences(vals, w) <= Occurrences(vals, m)
  {
    if |cands| == 1 then cands[0]
    else
      var rest := MostCommon(vals, cands[1..]);
      if Occurrences(vals, cands[0]) >= Occurrences(vals, rest) then cands[0] else rest
  }

  /** One entry of the `categories` map. */
  datatype CategoryStat = CategoryStat(sameRate: real, mostName: string, mostRate: real)

  function CategoryValues(recs: seq<Record>, c: CategoryColumn): seq<string> {
    seq(|recs|, k requires 0 <= k < |recs| => recs[k].Category(c))
  }

  /**
   * same_rate: the share of peers with the project's value; most: the most
   * common value and its share (`cnt[0]` is read by position, the top count).
   */
  function CategoryStatFor(recs: seq<Record>, project: ProjectFacts, c: CategoryColumn): CategoryStat
    requires recs != []
  {
    var vals := CategoryValues(recs, c);
    var most := MostCommon(vals, vals);
    CategoryStat(
      Occurrences(vals, project.Category(c)) as real / |vals| as real,
      most,
      Occurrences(vals, most) as real / |vals| as real)
  }

  function Categories(recs: seq<Record>, project: ProjectFacts): (m: map<CategoryColumn, CategoryStat>)
    requires recs != []
    ensures m.Keys == CategoryColumnSet
  {
    CategoriesUpTo(recs, project, 2)
  }

  /** The categories map after the loop has handled the first `n` columns. */
  function CategoriesUpTo(recs: seq<Record>, project: ProjectFacts, n: nat): map<CategoryColumn, CategoryStat>
    requires recs != [] && n <= 2
  {
    if n == 0 then map[]
    else if n == 1 then map[DomainColumn := CategoryStatFor(recs, project, DomainColumn)]
    else map[DomainColumn := CategoryStatFor(recs, project, DomainColumn), TypeColumn := CategoryStatFor(recs, project, TypeColumn)]
  }

  /** Arithmetic aid for the share proofs (no source counterpart): dividing keeps the order. */
  lemma RatioMono(a: real, b: real, n: real)
    requires 0.0 <= a <= b && n > 0.0
    ensures 0.0 <= a / n <= b / n
  {
    assert b / n - a / n == (b - a) / n;
  }

  /**
   * The rates are shares in [0, 1]; the most common value is a peer's value
   * that at least as many peers share as any other value, the project's own
   * included, and its rate is positive.
   */
  lemma CategoryStatFacts(recs: seq<Record>, project: ProjectFacts, c: CategoryColumn)
    requires recs != []
    ensures var st := CategoryStatFor(recs, project, c);
      var vals := CategoryValues(recs, c);
      && 0.0 <= st.sameRate <= st.mostRate <= 1.0
      && 0.0 < st.mostRate
      && (exists k :: 0 <= k < |recs| && recs[k].Category(c) == st.mostName)
      && (forall w :: Occurrences(vals, w) <= Occurrences(vals, st.mostName))
      && (st.sameRate == 0.0 <==> project.Category(c) !in vals)
  {
    var vals := CategoryValues(recs, c);
    var most := MostCommon(vals, vals);
    var st := CategoryStatFor(recs, project, c);
    MostCommonOverall(vals);
    SharesOrdered(Occurrences(vals, project.Category(c)), Occurrences(vals, most), |vals|);
    OccurrencesPositive(vals, most);
    if project.Category(c) in vals {
      OccurrencesPositive(vals, project.Category(c));
    } else {
      OccurrencesAbsent(vals, project.Category(c));
    }
    var k :| 0 <= k < |vals| && vals[k] == most;
    assert recs[k].Category(c) == most;
  }

  /** Shares of counts no larger than the total lie in [0, 1] and keep their order. */
  lemma SharesOrdered(a: nat, b: nat, n: nat)
    requires a <= b <= n && n > 0
    ensures 0.0 <= a as real / n as real <= b as real / n as real <= 1.0
    ensures a as real / n as real == 0.0 <==> a == 0
    ensures b > 0 ==> b as real / n as real > 0.0
  {
    RatioMono(a as real, b as real, n as real);
    RatioMono(b as real, n as real, n as real);
  }

  /** The most common value of a column occurs at least as often as any string. */
  lemma MostCommonOverall(vals: seq<string>)
    requires vals != []
    ensures forall w :: Occurrences(vals, w) <= Occurrences(vals, MostCommon(vals, vals))
  {
    forall w ensures Occurrences(vals, w) <= Occurrences(vals, MostCommon(vals, vals)) {
      if w !in vals {
        OccurrencesAbsent(vals, w);
      }
    }
  }

  lemma {:induction false} OccurrencesAbsent(vals: seq<string>, v: string)
    requires v !in vals
    ensures Occurrences(vals, v) == 0
  {
    if vals != [] {
      OccurrencesAbsent(vals[1..], v);
    }
  }

  // ---------------------------------------------------------------------
  // The whole suggestion
  // ---------------------------------------------------------------------

  /** One entry of `peers`: the columns title, domain, type, success, cos and link. */
  datatype PeerInfo = PeerInfo(title: string, domain: string, projectType: string, success: bool, cos: real, link: string)

  function PeerInfos(recs: seq<Record>): seq<PeerInfo> {
    seq(|recs|, k requires 0 <= k < |recs| =>
      PeerInfo(recs[k].title, recs[k].domain, recs[k].projectType, recs[k].Success(), recs[k].cos, recs[k].link))
  }

  /** The result of get_suggestion. */
  datatype Suggestion = Suggestion(
    peerCnt: nat, peerSuccessCnt: nat, peers: seq<PeerInfo>,
    categories: map<CategoryColumn, CategoryStat>,
    recommendTokens: map<Field, seq<TokenSuggestion>>,
    metadata: map<MetaColumn, MetaStat>)

  /** get_suggestion for a given peer list: empty parts when there is no peer. */
  function SuggestionFor(ds: seq<Record>, a: PerField<FieldData>, peers: seq<nat>, project: ProjectFacts, own: PerField<seq<string>>): Suggestion
    requires ArtifactsFit(a, |ds|) && PeersIn(peers, |ds|)
  {
    var recs := PeerRecords(ds, peers);
    if |peers| > 0 then
      Suggestion(|peers|, CountWhere(recs, IsSuccessful), PeerInfos(recs), Categories(recs, project),
        TextSuggestionFor(ds, a, peers, own), MetaSuggestion(recs, project))
    else
      Suggestion(|peers|, CountWhere(recs, IsSuccessful), [], map[], map[], map[])
  }

  /**
   * get_suggestion as written: with at least one peer, get_text_suggestion
   * raises the axis error of lines 79-81 for a field without candidates;
   * otherwise the result is the suggestion above.
   */
  function SuggestionAsWritten(ds: seq<Record>, a: PerField<FieldData>, peers: seq<nat>, project: ProjectFacts, own: PerField<seq<string>>): (r: Result<Suggestion, SuggestError>)
    requires ArtifactsFit(a, |ds|) && PeersIn(peers, |ds|)
    ensures r.Err? ==> r.error == AxisError
    ensures r.Err? <==>
      (|peers| > 0 && (NoCandidates(a.title, peers, own.title)
        || NoCandidates(a.description, peers, own.description) || NoCandidates(a.content, peers, own.content)))
    ensures r.Ok? ==> r.value == SuggestionFor(ds, a, peers, project, own)
  {
    if |peers| > 0 && TextSuggestionAsWritten(ds, a, peers, own).Err? then Err(AxisError)
    else Ok(SuggestionFor(ds, a, peers, project, own))
  }

  /** Without peers every part is empty and both counts are zero. */
  lemma NoPeersEmptySuggestion(ds: seq<Record>, a: PerField<FieldData>, project: ProjectFacts, own: PerField<seq<string>>)
    requires ArtifactsFit(a, |ds|)
    ensures SuggestionFor(ds, a, [], project, own) == Suggestion(0, 0, [], map[], map[], map[])
  {
  }

  /**
   * With peers: the peer count is their number, the success count the number
   * of successful peers (so no larger), `peers` lists them in order, and the
   * categories, recommendations and metadata cover their full key sets.
   */
  lemma SuggestionShape(ds: seq<Record>, a: PerField<FieldData>, peers: seq<nat>, project: ProjectFacts, own: PerField<seq<string>>)
    requires ArtifactsFit(a, |ds|) && PeersIn(peers, |ds|) && |peers| > 0
    ensures var r := SuggestionFor(ds, a, peers, project, own);
      && r.peerCnt == |peers|
      && r.peerSuccessCnt == CountWhere(PeerRecords(ds, peers), IsSuccessful) <= r.peerCnt
      && |r.peers| == |peers|
      && (forall k :: 0 <= k < |peers| ==>
            (r.peers[k].title == ds[peers[k]].title && r.peers[k].link == ds[peers[k]].link
             && r.peers[k].success == ds[peers[k]].Success() && r.peers[k].cos == ds[peers[k]].cos))
      && r.categories.Keys == CategoryColumnSet
      && r.recommendTokens.Keys == FieldSet
      && r.metadata.Keys == MetaColumnSet
  {
    var infos := SuggestionFor(ds, a, peers, project, own).peers;
    assert infos == PeerInfos(PeerRecords(ds, peers));
    forall k | 0 <= k < |peers|
      ensures infos[k].title == ds[peers[k]].title && infos[k].link == ds[peers[k]].link
        && infos[k].success == ds[peers[k]].Success() && infos[k].cos == ds[peers[k]].cos
    {
      assert PeerRecords(ds, peers)[k] == ds[peers[k]];
    }
  }


  /**
   * The loop over the three fields and the two peer columns: every table
   * gains its peer_title and peer_link columns, and its rows stay as they are.
   */
  method AddPeerColumns(tables: map<Field, TokenTable>, titles: seq<string>, links: seq<string>) returns (out: map<Field, TokenTable>)
    requires tables.Keys == FieldSet && |titles| == |links|
    requires tables[Title].columns == map[] && MasksFit(tables[Title].rows, |titles|)
    requires tables[Description].columns == map[] && MasksFit(tables[Description].rows, |titles|)
    requires tables[Content].columns == map[] && MasksFit(tables[Content].rows, |titles|)
    ensures out.Keys == FieldSet
    ensures out[Title] == TokenTable(tables[Title].rows, FullColumns(tables[Title].rows, titles, links))
    ensures out[Description] == TokenTable(tables[Description].rows, FullColumns(tables[Description].rows, titles, links))
    ensures out[Content] == TokenTable(tables[Content].rows, FullColumns(tables[Content].rows, titles, links))
  {
    out := tables;
    var rows := map[Title := tables[Title].rows, Description := tables[Description].rows, Content := tables[Content].rows];
    for ci := 0 to |Fields|
      invariant out.Keys == FieldSet
      invariant out[Title] == WithPeerColumns(rows[Title], titles, links, Stage(0, ci, 0))
      invariant out[Description] == WithPeerColumns(rows[Description], titles, links, Stage(1, ci, 0))
      invariant out[Content] == WithPeerColumns(rows[Content], titles, links, Stage(2, ci, 0))
    {
      var col := Fields[ci];
      for pi := 0 to |PeerProps|
        invariant out.Keys == FieldSet
        invariant out[Title] == WithPeerColumns(rows[Title], titles, links, Stage(0, ci, pi))
        invariant out[Description] == WithPeerColumns(rows[Description], titles, links, Stage(1, ci, pi))
        invariant out[Content] == WithPeerColumns(rows[Content], titles, links, Stage(2, ci, pi))
      {
        var peerCol := PeerProps[pi];
        var t := out[col];
        out := out[col := t.(columns := t.columns[peerCol := PeerColumn(t.rows, PropValues(peerCol, titles, links))])];
      }
    }
  }

  /**
   * The body of get_text_suggestion once the peer titles and links are
   * known: each field's ranked table, then the peer_title and peer_link
   * columns added field by field, then each table's records.
   */
  method TextTables(a: PerField<FieldData>, n: nat, peers: seq<nat>, own: PerField<seq<string>>, titles: seq<string>, links: seq<string>)
    returns (result: map<Field, seq<TokenSuggestion>>)
    requires ArtifactsFit(a, n) && PeersIn(peers, n) && |titles| == |peers| && |links| == |peers|
    ensures result == map[
      Title := FieldRecommendations(a.title, peers, own.title, titles, links),
      Description := FieldRecommendations(a.description, peers, own.description, titles, links),
      Content := FieldRecommendations(a.content, peers, own.content, titles, links)]
  {
    ArtifactsFitGet(a, n, Title);
    ArtifactsFitGet(a, n, Description);
    ArtifactsFitGet(a, n, Content);
    var title := Ranked(a.title, PeerDocs(a.title.tokens, peers), own.title);
    RankedMasksFit(a.title, PeerDocs(a.title.tokens, peers), own.title);
    var description := Ranked(a.description, PeerDocs(a.description.tokens, peers), own.description);
    RankedMasksFit(a.description, PeerDocs(a.description.tokens, peers), own.description);
    var content := Ranked(a.content, PeerDocs(a.content.tokens, peers), own.content);
    RankedMasksFit(a.content, PeerDocs(a.content.tokens, peers), own.content);
    var tables: map<Field, TokenTable> := map[
      Title := TokenTable(title, map[]),
      Description := TokenTable(description, map[]),
      Content := TokenTable(content, map[])];
    tables := AddPeerColumns(tables, titles, links);
    FieldRecords(a.title, peers, own.title, titles, links);
    FieldRecords(a.description, peers, own.description, titles, links);
    FieldRecords(a.content, peers, own.content, titles, links);
    result := map[
      Title := Records(tables[Title]),
      Description := Records(tables[Description]),
      Content := Records(tables[Content])];
  }

  /** The historical dataset, whose `cos` column each search overwrites, and the fixed text artifacts. */
  class Corpus {
    var dataset: seq<Record>
    const artifacts: PerField<FieldData>

    ghost predicate Valid()
      reads this
    {
      ArtifactsFit(artifacts, |dataset|)
    }

    constructor (dataset: seq<Record>, artifacts: PerField<FieldData>)
      requires ArtifactsFit(artifacts, |dataset|)
      ensures Valid() && this.dataset == dataset && this.artifacts == artifacts
    {
      this.dataset := dataset;
      this.artifacts := artifacts;
    }

    /**
     * get_similar_project: stores the new similarities as the `cos` column
     * (a length mismatch is pandas' ValueError and changes nothing) and
     * returns the indices of the top rows, a ranking the source may produce.
     */
    method GetSimilarProject(cos: seq<real>) returns (r: Result<seq<nat>, SuggestError>)
      requires Valid()
      modifies this
      ensures Valid()
      ensures |cos| != |old(dataset)| ==> r == Err(LengthMismatch) && dataset == old(dataset)
      ensures |cos| == |old(dataset)| ==> dataset == WithCos(old(dataset), cos) && r == Ok(TopPeers(cos))
      ensures r.Ok? ==> IsPeerRanking(cos, r.value) && PeersIn(r.value, |dataset|)
    {
      if |cos| != |dataset| {
        return Err(LengthMismatch);
      }
      dataset := WithCos(dataset, cos);
      assert CosColumn(dataset) == cos;
      TopPeersIsRanking(cos);
      r := Ok(TopPeers(CosColumn(dataset)));
    }

    /**
     * get_text_suggestion: a field without candidates makes `sum(axis=1)`
     * raise; otherwise it builds each field's ranked table, then adds the
     * peer_title and peer_link columns field by field.
     */
    method GetTextSuggestion(peers: seq<nat>, own: PerField<seq<string>>) returns (r: Result<map<Field, seq<TokenSuggestion>>, SuggestError>)
      requires Valid() && PeersIn(peers, |dataset|)
      ensures r == TextSuggestionAsWritten(dataset, artifacts, peers, own)
    {
      if NoCandidates(artifacts.title, peers, own.title) || NoCandidates(artifacts.description, peers, own.description)
        || NoCandidates(artifacts.content, peers, own.content)
      {
        return Err(AxisError);
      }
      var titles := PeerTitles(dataset, peers);
      var links := PeerLinks(dataset, peers);
      var result := TextTables(artifacts, |dataset|, peers, own, titles, links);
      r := Ok(result);
    }

    /**
     * get_suggestion: searches the peers (writing the `cos` column), and with
     * at least one peer fills the categories field by field and adds the
     * text and metadata suggestions, where the text suggestion may raise;
     * without peers every part is empty.
     */
    method GetSuggestion(project: ProjectFacts, cos: seq<real>, own: PerField<seq<string>>) returns (r: Result<Suggestion, SuggestError>)
      requires Valid()
      modifies this
      ensures Valid()
      ensures |cos| != |old(dataset)| ==> r == Err(LengthMismatch) && dataset == old(dataset)
      ensures |cos| == |old(dataset)| ==>
        dataset == WithCos(old(dataset), cos) && PeersIn(TopPeers(cos), |dataset|) &&
        r == SuggestionAsWritten(dataset, artifacts, TopPeers(cos), project, own)
    {
      var sim := GetSimilarProject(cos);
      if sim.Err? {
        return Err(sim.error);
      }
      var peers := sim.value;
      var recs := PeerRecords(dataset, peers);
      var peerInfos: seq<PeerInfo> := [];
      var cate: map<CategoryColumn, CategoryStat> := map[];
      var text: map<Field, seq<TokenSuggestion>> := map[];
      var meta: map<MetaColumn, MetaStat> := map[];
      if |peers| > 0 {
        peerInfos := PeerInfos(recs);
        for i := 0 to |CategoryColumns|
          invariant cate == CategoriesUpTo(recs, project, i)
        {
          var col := CategoryColumns[i];
          cate := cate[col := CategoryStatFor(recs, project, col)];
        }
        var t := GetTextSuggestion(peers, own);
        if t.Err? {
          return Err(t.error);
        }
        text := t.value;
        meta := MetaSuggestion(recs, project);
      }
      r := Ok(Suggestion(|peers|, CountWhere(recs, IsSuccessful), peerInfos, cate, text, meta));
    }
  }

}
