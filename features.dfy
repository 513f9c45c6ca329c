/**
 * The feature gates of a cluster, read from its scraped metrics: each sample
 * of the `kubernetes_feature_enabled` metric names a feature, its stage and
 * whether it is on.
 */
module Features {
  import opened Wrappers

  /**
   * A sample's value. The floating-point payload is held as a real number; a
   * histogram's or summary's buckets are not modelled, since no comparison
   * here looks into them.
   */
  datatype Value = Counter(c: real) | Gauge(g: real) | Histogram | Summary | Untyped(u: real)

  datatype Sample = Sample(metric: string, labels: map<string, string>, value: Value)

  datatype Feature = Feature(name: string, stage: string, enabled: bool)

  const KubernetesFeatures: string := "kubernetes_feature_enabled"

  /** `from_sample`: the "name" and "stage" labels, and whether the value is the gauge 1. */
  function FromSample(sample: Sample): (r: Option<Feature>)
    ensures r.None? <==> "name" !in sample.labels || "stage" !in sample.labels
    ensures r.Some? ==> r.value.name == sample.labels["name"] && r.value.stage == sample.labels["stage"]
    ensures r.Some? ==> (r.value.enabled <==> sample.value == Gauge(1.0))
  {
    if "name" !in sample.labels then None
    else if "stage" !in sample.labels then None
    else Some(Feature(sample.labels["name"], sample.labels["stage"], sample.value == Gauge(1.0)))
  }

  /** `from_scrape`: the samples of the feature metric that carry both labels, in scrape order. */
  function FromScrape(samples: seq<Sample>): seq<Feature>
    decreases |samples|
  {
    if samples == [] then []
    else
      var s := samples[0];
      (if s.metric == KubernetesFeatures && FromSample(s).Some? then [FromSample(s).value] else [])
      + FromScrape(samples[1..])
  }

  /** Scraping two runs of samples gives the features of the first, then those of the second. */
  lemma {:induction false} FromScrapeAppend(a: seq<Sample>, b: seq<Sample>)
    decreases |a|
    ensures FromScrape(a + b) == FromScrape(a) + FromScrape(b)
  {
    if a != [] {
      assert (a + b)[1..] == a[1..] + b;
      FromScrapeAppend(a[1..], b);
    } else {
      assert a + b == b;
    }
  }

  /** A single sample gives its feature exactly when it is of the feature metric and has both labels. */
  lemma FromScrapeOne(s: Sample)
    ensures FromScrape([s]) == if s.metric == KubernetesFeatures && FromSample(s).Some? then [FromSample(s).value] else []
  {
    assert [s][1..] == [];
  }

  /** Every feature comes from a sample of the feature metric, and every such sample with both labels gives one. */
  lemma {:induction false} FromScrapeMeaning(samples: seq<Sample>)
    decreases |samples|
    ensures |FromScrape(samples)| <= |samples|
    ensures forall f :: f in FromScrape(samples) ==>
              exists i :: 0 <= i < |samples| && samples[i].metric == KubernetesFeatures && FromSample(samples[i]) == Some(f)
    ensures forall i :: 0 <= i < |samples| && samples[i].metric == KubernetesFeatures && FromSample(samples[i]).Some? ==>
              FromSample(samples[i]).value in FromScrape(samples)
  {
    if samples != [] {
      FromScrapeMeaning(samples[1..]);
      var rest := FromScrape(samples[1..]);
      forall f | f in FromScrape(samples)
        ensures exists i :: 0 <= i < |samples| && samples[i].metric == KubernetesFeatures && FromSample(samples[i]) == Some(f)
      {
        if f in rest {
          var i :| 0 <= i < |samples[1..]| && samples[1..][i].metric == KubernetesFeatures && FromSample(samples[1..][i]) == Some(f);
          assert samples[i + 1] == samples[1..][i];
        } else {
          assert FromSample(samples[0]) == Some(f);
        }
      }
      forall i | 0 <= i < |samples| && samples[i].metric == KubernetesFeatures && FromSample(samples[i]).Some?
        ensures FromSample(samples[i]).value in FromScrape(samples)
      {
        if i > 0 {
          assert samples[1..][i - 1] == samples[i];
        }
      }
    }
  }
}
