/** gbdx_buffet/pipeline.py: the two transfer-progress callbacks, the
    WorldView platform test, and which objects `download_single` fetches to
    where. */
module Pipeline {
  import opened Common

  datatype ProgressError =
    | ZeroDivision          // `// self.size` with a size of 0
    | SlackRefused(status: int)  // `post_slack` got a status other than 200

  /** `(total * 100) // size` for a non-negative total and a positive size. */
  function Percent(total: nat, size: nat): nat
    requires size > 0
  {
    total * 100 / size
  }

  /** The percentage never goes down while the total grows. */
  lemma PercentMonotone(a: nat, b: nat, size: nat)
    requires size > 0 && a <= b
    ensures Percent(a, size) <= Percent(b, size)
  {
    var p, q := Percent(a, size), Percent(b, size);
    if p > q {
      assert p >= q + 1;
      assert p * size <= a * 100 by { DivMulBound(a * 100, size); }
      assert (q + 1) * size > b * 100 by { DivMulBound(b * 100, size); }
      assert (q + 1) * size <= p * size by { MulMonotone(q + 1, p, size); }
      assert false;
    }
  }

  lemma DivMulBound(n: nat, d: nat)
    requires d > 0
    ensures (n / d) * d <= n < (n / d + 1) * d
  {
  }

  lemma MulMonotone(a: nat, b: nat, c: nat)
    requires a <= b
    ensures a * c <= b * c
  {
  }

  /** `f.seek(0); f.write(text)` on a file holding `content`: the text
      replaces the start of the content, and whatever lies beyond stays. */
  function Overwrite(content: string, text: string): (r: string)
    ensures |r| == if |text| < |content| then |content| else |text|
    ensures r[..|text|] == text
  {
    if |text| < |content| then text + content[|text|..] else text
  }

  /** `ProgressPercentageFile`: keeps the percentage of `size` transferred
      so far in the file `filename`, rewritten on each call while the file
      is open, and closes the file once exactly `size` bytes arrived. */
  class ProgressPercentageFile {
    const filename: string
    const size: nat
    var total: nat
    var percent: nat
    var fileOpen: bool
    var content: string

    /** The file holds the current percentage once anything was written,
        and the percentage follows the total. */
    predicate Valid()
      reads this
    {
      && (size > 0 ==> percent == Percent(total, size))
      && (size == 0 ==> percent == 0 && content == "")
      && (fileOpen ==> content == "" || content == DecimalString(percent))
      && (content != "" ==> exists p: nat :: p <= percent && content == DecimalString(p))
    }

    /** `open(filename, 'w')` leaves an empty open file. */
    constructor (filename: string, size: nat)
      ensures Valid()
      ensures this.filename == filename && this.size == size
      ensures total == 0 && percent == 0 && fileOpen && content == ""
    {
      this.filename := filename;
      this.size := size;
      total := 0;
      percent := 0;
      fileOpen := true;
      content := "";
    }

    /** `__call__(bytes_amount)` */
    method Call(bytesAmount: nat) returns (r: Result<(), ProgressError>)
      requires Valid()
      modifies this
      ensures Valid()
      ensures total == old(total) + bytesAmount
      ensures r.Err? <==> size == 0
      ensures size == 0 ==> r == Err(ZeroDivision) && percent == old(percent)
                            && fileOpen == old(fileOpen) && content == old(content)
      ensures size > 0 ==> percent == Percent(total, size) && percent >= old(percent)
      ensures size > 0 && old(fileOpen) ==> content == DecimalString(percent)
      ensures size > 0 && !old(fileOpen) ==> content == old(content)
      ensures size > 0 ==> fileOpen == (old(fileOpen) && total != size)
    {
      total := total + bytesAmount;
      if size == 0 {
        return Err(ZeroDivision);
      }
      var last := percent;
      percent := Percent(total, size);
      PercentMonotone(total - bytesAmount, total, size);
      if fileOpen {
        var text := DecimalString(percent);
        if content != "" {
          DecimalLengthMonotone(last, percent);
        }
        content := Overwrite(content, text);
        assert content == text;
      } else if content != "" {
        var p: nat :| p <= last && content == DecimalString(p);
        assert p <= percent;
      }
      if total == size {
        fileOpen := false;
      }
      return Ok(());
    }
  }

  /** The text posted to Slack: `"{} is {}% processed".format(filename, percent)`. */
  function SlackMessage(filename: string, percent: nat): string
  {
    filename + " is " + DecimalString(percent) + "% processed"
  }

  /** `ProgressPercentageSlack`: posts the percentage to Slack each time it
      enters a new tens bracket, and closes its (never written) file once
      exactly `size` bytes arrived. */
  class ProgressPercentageSlack {
    const filename: string
    const size: nat
    var total: nat
    var percent: nat
    var fileOpen: bool
    var content: string
    /** The messages posted so far, oldest first. */
    var posts: seq<string>

    /** Each post entered a new tens bracket, so there are no more posts than
        tens of percent. */
    predicate Valid()
      reads this
    {
      && (size > 0 ==> percent == Percent(total, size))
      && (size == 0 ==> percent == 0)
      && |posts| <= percent / 10
      && content == ""
    }

    constructor (filename: string, size: nat)
      ensures Valid()
      ensures this.filename == filename && this.size == size
      ensures total == 0 && percent == 0 && fileOpen && content == "" && posts == []
    {
      this.filename := filename;
      this.size := size;
      total := 0;
      percent := 0;
      fileOpen := true;
      content := "";
      posts := [];
    }

    /** `__call__(bytes_amount)`; `slackStatus` is the status Slack answers
        a post with. */
    method Call(bytesAmount: nat, slackStatus: int) returns (r: Result<(), ProgressError>)
      requires Valid()
      modifies this
      ensures Valid()
      ensures total == old(total) + bytesAmount && content == ""
      ensures size == 0 ==> r == Err(ZeroDivision) && percent == old(percent) && posts == old(posts)
                            && fileOpen == old(fileOpen)
      ensures size > 0 ==> percent == Percent(total, size) && percent >= old(percent)
      ensures size > 0 ==> posts == old(posts) + (if percent / 10 > old(percent) / 10
                                                  then [SlackMessage(filename, percent)] else [])
      ensures size > 0 && percent / 10 > old(percent) / 10 && slackStatus != 200 ==>
                r == Err(SlackRefused(slackStatus)) && fileOpen == old(fileOpen)
      ensures r.Ok? <==> size > 0 && (percent / 10 <= old(percent) / 10 || slackStatus == 200)
      ensures r.Ok? ==> fileOpen == (old(fileOpen) && total != size)
    {
      total := total + bytesAmount;
      var lastPercent := percent;
      if size == 0 {
        return Err(ZeroDivision);
      }
      percent := Percent(total, size);
      PercentMonotone(total - bytesAmount, total, size);
      if percent / 10 - lastPercent / 10 > 0 {
        posts := posts + [SlackMessage(filename, percent)];
        if slackStatus != 200 {
          return Err(SlackRefused(slackStatus));
        }
      }
      if total == size {
        fileOpen := false;
      }
      return Ok(());
    }
  }

  /** A transfer that never goes past the size posts at most ten times. */
  lemma SlackPostsBounded(total: nat, size: nat, posts: nat)
    requires size > 0 && total <= size && posts <= Percent(total, size) / 10
    ensures posts <= 10
  {
    PercentMonotone(total, size, size);
    assert size * 100 == 100 * size;
    MulDivCancel(100, size);
  }

  lemma MulDivCancel(a: nat, d: nat)
    requires d > 0
    ensures a * d / d == a
  {
    var q := a * d / d;
    DivMulBound(a * d, d);
    if q < a {
      MulMonotone(q + 1, a, d);
    } else if q > a {
      MulMonotone(a + 1, q, d);
    }
  }

  /** `is_wv(platform)`: the platform name ends in 03 or 04. */
  predicate IsWv(platform: string)
  {
    EndsWith(platform, "03") || EndsWith(platform, "04")
  }

  /** The platform is WorldView-3 or -4 exactly when its last two characters
      are 0 followed by 3 or 4. */
  lemma IsWvLastTwo(platform: string)
    ensures IsWv(platform) <==> |platform| >= 2 && platform[|platform| - 2] == '0'
                                && (platform[|platform| - 1] == '3' || platform[|platform| - 1] == '4')
  {
    if |platform| >= 2 {
      var tail := platform[|platform| - 2..];
      assert tail[0] == platform[|platform| - 2] && tail[1] == platform[|platform| - 1];
      assert |tail| == 2;
    }
  }

  /** A download `download_single` starts: the object key, the local
      destination, and the progress file its callback writes, if any. */
  datatype Transfer = Transfer(key: string, destination: string, progress: Option<string>)

  datatype KeyKind = Tif | Imd | Other

  /** The suffix test of `download_single`, on the lower-cased key. */
  function KindOf(key: string): KeyKind
  {
    if EndsWith(Lower(key), "tif") then Tif
    else if EndsWith(Lower(key), "imd") then Imd
    else Other
  }

  /** The transfers started for one key whose catalog id is `catid`: a tif
      is downloaded twice to `/pipeline/data/<catid>.tif` (through the
      transfer manager and through the bucket), each with a progress file
      `/pipeline/download/<catid>`, an imd once to `/pipeline/data/<catid>.imd`. */
  function KeyTransfers(key: string, catid: string): seq<Transfer>
  {
    match KindOf(key)
    case Tif =>
      var t := Transfer(key, "/pipeline/data/" + catid + ".tif", Some("/pipeline/download/" + catid));
      [t, t]
    case Imd => [Transfer(key, "/pipeline/data/" + catid + ".imd", None)]
    case Other => []
  }

  /** The download failed at the key with this index: no catalog id could be
      found in it (`regex.search(...)` gave `None`). */
  datatype RouteError = NoCatalogId(index: nat)

  /** The keys `download_single` fetches: those ending in tif or imd. */
  predicate Fetches(key: string)
  {
    KindOf(key) != Other
  }

  /** No fetched key lacks a catalog id. */
  predicate AllIdentified(keys: seq<string>, fetches: string -> bool, catalogIdOf: string -> Option<string>)
  {
    forall j :: 0 <= j < |keys| ==> !fetches(keys[j]) || catalogIdOf(keys[j]).Some?
  }

  /** The transfers for keys none of which lacks a needed catalog id, key
      after key. */
  function AllTransfers(keys: seq<string>, fetches: string -> bool, catalogIdOf: string -> Option<string>,
                        transfersOf: (string, string) -> seq<Transfer>): seq<Transfer>
    requires AllIdentified(keys, fetches, catalogIdOf)
  {
    if |keys| == 0 then []
    else
      var key := keys[|keys| - 1];
      assert AllIdentified(keys[..|keys| - 1], fetches, catalogIdOf) by {
        assert forall j :: 0 <= j < |keys| - 1 ==> keys[..|keys| - 1][j] == keys[j];
      }
      AllTransfers(keys[..|keys| - 1], fetches, catalogIdOf, transfersOf)
        + (if fetches(key) then transfersOf(key, catalogIdOf(key).value) else [])
  }

  /** The loop of `download_single` over the keys, for any choice of which
      keys are fetched and how. */
  method RouteKeys(keys: seq<string>, fetches: string -> bool, catalogIdOf: string -> Option<string>,
                   transfersOf: (string, string) -> seq<Transfer>)
    returns (transfers: seq<Transfer>, r: Result<(), RouteError>)
    ensures r.Err? ==> var i := r.error.index;
      && i < |keys| && fetches(keys[i]) && catalogIdOf(keys[i]).None?
      && AllIdentified(keys[..i], fetches, catalogIdOf)
    ensures r.Ok? <==> AllIdentified(keys, fetches, catalogIdOf)
    ensures var n := if r.Err? then r.error.index else |keys|;
      && n <= |keys| && AllIdentified(keys[..n], fetches, catalogIdOf)
      && transfers == AllTransfers(keys[..n], fetches, catalogIdOf, transfersOf)
  {
    transfers := [];
    var i := 0;
    while i < |keys|
      invariant 0 <= i <= |keys|
      invariant AllIdentified(keys[..i], fetches, catalogIdOf)
      invariant transfers == AllTransfers(keys[..i], fetches, catalogIdOf, transfersOf)
    {
      var key := keys[i];
      assert keys[..i + 1][..i] == keys[..i];
      if fetches(key) {
        var catid := catalogIdOf(key);
        if catid.None? {
          assert !AllIdentified(keys, fetches, catalogIdOf);
          return transfers, Err(NoCatalogId(i));
        }
        transfers := transfers + transfersOf(key, catid.value);
      }
      assert forall j :: 0 <= j < i + 1 ==> keys[..i + 1][j] == keys[j];
      i := i + 1;
    }
    assert keys[..i] == keys;
    return transfers, Ok(());
  }

  /** `download_single` over the object keys; `catalogIdOf` is the
      catalog-id search over a key. */
  method DownloadSingle(keys: seq<string>, catalogIdOf: string -> Option<string>)
    returns (transfers: seq<Transfer>, r: Result<(), RouteError>)
    ensures r.Err? ==> var i := r.error.index;
      && i < |keys| && Fetches(keys[i]) && catalogIdOf(keys[i]).None?
      && AllIdentified(keys[..i], Fetches, catalogIdOf)
    ensures r.Ok? <==> AllIdentified(keys, Fetches, catalogIdOf)
    ensures var n := if r.Err? then r.error.index else |keys|;
      && n <= |keys| && AllIdentified(keys[..n], Fetches, catalogIdOf)
      && transfers == AllTransfers(keys[..n], Fetches, catalogIdOf, KeyTransfers)
  {
    transfers, r := RouteKeys(keys, Fetches, catalogIdOf, KeyTransfers);
  }

  /** Every transfer is of a tif or imd key and lands in `/pipeline/data/`
      under the key's catalog id with the matching extension; keys of any
      other kind are never transferred. */
  lemma {:induction false} TransfersRouted(keys: seq<string>, catalogIdOf: string -> Option<string>)
    requires AllIdentified(keys, Fetches, catalogIdOf)
    ensures forall t :: t in AllTransfers(keys, Fetches, catalogIdOf, KeyTransfers) ==>
      && t.key in keys && Fetches(t.key)
      && t.destination == "/pipeline/data/" + catalogIdOf(t.key).value + (if KindOf(t.key) == Tif then ".tif" else ".imd")
      && (t.progress.Some? <==> KindOf(t.key) == Tif)
  {
    if |keys| > 0 {
      var init := keys[..|keys| - 1];
      var key := keys[|keys| - 1];
      assert AllIdentified(init, Fetches, catalogIdOf) by {
        assert forall j :: 0 <= j < |keys| - 1 ==> init[j] == keys[j];
      }
      TransfersRouted(init, catalogIdOf);
      var all := AllTransfers(keys, Fetches, catalogIdOf, KeyTransfers);
      assert all == AllTransfers(init, Fetches, catalogIdOf, KeyTransfers)
                    + (if Fetches(key) then KeyTransfers(key, catalogIdOf(key).value) else []);
      forall t | t in all
        ensures t.key in keys && Fetches(t.key)
        ensures t.destination == "/pipeline/data/" + catalogIdOf(t.key).value + (if KindOf(t.key) == Tif then ".tif" else ".imd")
        ensures t.progress.Some? <==> KindOf(t.key) == Tif
      {
        if t in AllTransfers(init, Fetches, catalogIdOf, KeyTransfers) {
          assert t.key in init;
        } else {
          assert t in KeyTransfers(key, catalogIdOf(key).value);
          assert t.key == key;
        }
      }
    }
  }

  /** The case of the suffix does not matter. */
  lemma KindIgnoresCase(key: string)
    ensures KindOf(Lower(key)) == KindOf(key)
  {
    assert Lower(Lower(key)) == Lower(key) by {
      forall k | 0 <= k < |key| ensures Lower(Lower(key))[k] == Lower(key)[k] {
        var c := key[k];
      }
    }
  }
}
