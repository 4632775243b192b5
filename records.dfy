/** The records built from one rendered listing page: the field map of a job
    card, the detail map of its description panel, and the combined record that
    layers both over the capture date and the salary bucket. */
module Records {
  import opened Text

  /** A JSON object whose values are all strings. */
  type Record = map<string, string>

  /** One `[data-automation]` element inside a job card: the attribute value and the
      element's rendered text. */
  datatype Field = Field(key: string, text: string)

  /** One `[data-card-type="JobCard"]` element: its `data-job-id`, its labelled
      elements in document order, and the text of the `jobAdDetails` panel that
      clicking its title shows. */
  datatype Card = Card(jobId: string, fields: seq<Field>, panel: string)

  /** `data[key] = value` for each field in turn, the value trimmed. */
  function Fold(base: Record, fs: seq<Field>): (r: Record)
  {
    if fs == [] then base
    else
      var last := fs[|fs| - 1];
      Fold(base, fs[..|fs| - 1])[last.key := Trim(last.text)]
  }

  /** The map the card extraction builds: `id` first, then every labelled element. */
  function CardMap(c: Card): (r: Record)
    ensures "id" in r
  {
    FoldKeys(map["id" := c.jobId], c.fields);
    Fold(map["id" := c.jobId], c.fields)
  }

  /** The map the detail extraction builds from the description panel: one key,
      whose normalised text is that of the untrimmed panel. */
  function DetailMap(panel: string): (r: Record)
    ensures r.Keys == {"jobAdDetails"}
    ensures Normalise(r["jobAdDetails"]) == Normalise(panel)
  {
    NormaliseTrim(panel);
    map["jobAdDetails" := Trim(panel)]
  }

  /** Some field carries key `k`. */
  predicate Carries(fs: seq<Field>, k: string) {
    exists i :: 0 <= i < |fs| && fs[i].key == k
  }

  /** Field `i` is the last one carrying key `k`. */
  predicate LastWith(fs: seq<Field>, k: string, i: nat) {
    i < |fs| && fs[i].key == k && forall j :: i < j < |fs| ==> fs[j].key != k
  }

  /** Folding adds exactly the keys the fields carry. */
  lemma {:induction false} FoldKeys(base: Record, fs: seq<Field>)
    ensures forall k :: k in Fold(base, fs) <==> k in base || Carries(fs, k)
  {
    if fs != [] {
      var n := |fs| - 1;
      FoldKeys(base, fs[..n]);
      forall k ensures Carries(fs, k) <==> Carries(fs[..n], k) || fs[n].key == k {
        if Carries(fs, k) && fs[n].key != k {
          var i :| 0 <= i < |fs| && fs[i].key == k;
          assert fs[..n][i] == fs[i];
        }
        if Carries(fs[..n], k) {
          var i :| 0 <= i < n && fs[..n][i].key == k;
          assert fs[i] == fs[..n][i];
        }
      }
    }
  }

  /** A key no field carries keeps its value in `base`. */
  lemma {:induction false} FoldUntouched(base: Record, fs: seq<Field>, k: string)
    requires k in base && !Carries(fs, k)
    ensures k in Fold(base, fs) && Fold(base, fs)[k] == base[k]
  {
    if fs != [] {
      var n := |fs| - 1;
      assert fs[n].key != k;
      assert !Carries(fs[..n], k) by {
        forall i | 0 <= i < n ensures fs[..n][i].key != k {
          assert fs[..n][i] == fs[i];
        }
      }
      FoldUntouched(base, fs[..n], k);
    }
  }

  /** A key carried by some field holds the trimmed text of the last such field:
      later duplicates overwrite earlier ones. */
  lemma {:induction false} FoldLast(base: Record, fs: seq<Field>, k: string, i: nat)
    requires LastWith(fs, k, i)
    ensures k in Fold(base, fs) && Fold(base, fs)[k] == Trim(fs[i].text)
  {
    var n := |fs| - 1;
    if i < n {
      assert fs[n].key != k;
      assert LastWith(fs[..n], k, i) by {
        forall j | i < j < n ensures fs[..n][j].key != k {
          assert fs[..n][j] == fs[j];
        }
      }
      FoldLast(base, fs[..n], k, i);
    }
  }

  /** The card map holds `id` and exactly the keys of the card's labelled elements;
      each labelled key holds the trimmed text of its last element, and `id` holds the
      job id unless a labelled element named `id` overwrote it. */
  lemma CardMapLookup(c: Card, k: string)
    ensures k in CardMap(c) <==> k == "id" || Carries(c.fields, k)
    ensures k == "id" && !Carries(c.fields, k) ==> CardMap(c)[k] == c.jobId
    ensures forall i: nat :: LastWith(c.fields, k, i) ==> CardMap(c)[k] == Trim(c.fields[i].text)
  {
    var base := map["id" := c.jobId];
    FoldKeys(base, c.fields);
    if k == "id" && !Carries(c.fields, k) {
      FoldUntouched(base, c.fields, k);
    }
    forall i: nat | LastWith(c.fields, k, i) ensures CardMap(c)[k] == Trim(c.fields[i].text) {
      FoldLast(base, c.fields, k, i);
    }
  }

  /** The object literal `{date, salaryRange, ...card, ...detail}`. */
  function Combine(date: string, salaryRange: string, card: Record, detail: Record): (r: Record)
  {
    map["date" := date, "salaryRange" := salaryRange] + card + detail
  }

  /** Later layers override earlier ones: the record holds the date, the salary range,
      and every key of the card and the detail map; a key takes its value from the
      detail map if present there, else from the card map, else from the two leading
      fields. */
  lemma CombineLayers(date: string, salaryRange: string, card: Record, detail: Record)
    ensures Combine(date, salaryRange, card, detail).Keys == {"date", "salaryRange"} + card.Keys + detail.Keys
    ensures forall k :: k in Combine(date, salaryRange, card, detail) ==>
              Combine(date, salaryRange, card, detail)[k] ==
                (if k in detail then detail[k]
                 else if k in card then card[k]
                 else if k == "salaryRange" then salaryRange
                 else date)
  {
  }

  /** The combined record of one card: it carries the card's `id` field and the
      trimmed description panel. */
  function Combined(date: string, salaryRange: string, c: Card): (r: Record)
  {
    Combine(date, salaryRange, CardMap(c), DetailMap(c.panel))
  }

  /** The card extraction for one card: `data["id"] = card.dataset.jobId`, then
      `data[key] = element.innerText.trim()` for each labelled element. */
  method ExtractCard(c: Card) returns (data: Record)
    ensures data == CardMap(c)
  {
    data := map[];
    data := data["id" := c.jobId];
    for i := 0 to |c.fields|
      invariant data == Fold(map["id" := c.jobId], c.fields[..i])
    {
      var key := c.fields[i].key;
      var value := Trim(c.fields[i].text);
      data := data[key := value];
      assert c.fields[..i + 1][..i] == c.fields[..i];
    }
    assert c.fields[..|c.fields|] == c.fields;
  }

  /** The card extraction for a whole page: one map per card, in document order. */
  method ExtractCards(cards: seq<Card>) returns (jobData: seq<Record>)
    ensures |jobData| == |cards|
    ensures forall i :: 0 <= i < |cards| ==> jobData[i] == CardMap(cards[i])
  {
    jobData := [];
    for i := 0 to |cards|
      invariant |jobData| == i
      invariant forall j :: 0 <= j < i ==> jobData[j] == CardMap(cards[j])
    {
      var data := ExtractCard(cards[i]);
      jobData := jobData + [data];
    }
  }
}
