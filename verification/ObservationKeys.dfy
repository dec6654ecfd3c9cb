// When two observation keys are the same.
module ObservationKeys {
  import opened FeedTables
  import opened Options

  predicate ColonFree(s: string) {
    ':' !in s
  }

  // The text before the first colon, and the text after it.
  lemma {:induction false} SplitAtColon(a: string, rest: string, b: string, rest': string)
    requires ColonFree(a) && ColonFree(b)
    ensures a + ":" + rest == b + ":" + rest' <==> a == b && rest == rest'
    decreases |a|
  {
    var s, s' := a + ":" + rest, b + ":" + rest';
    if s == s' {
      assert s[0] == s'[0];
      if a == [] || b == [] {
        assert a == [] ==> s[0] == ':';
        assert b == [] ==> s'[0] == ':';
        assert a == [] && b == [];
        assert s[1..] == rest && s'[1..] == rest';
      } else {
        assert s[1..] == a[1..] + ":" + rest && s'[1..] == b[1..] + ":" + rest';
        SplitAtColon(a[1..], rest, b[1..], rest');
        assert a == [a[0]] + a[1..] && b == [b[0]] + b[1..];
      }
    }
  }

  predicate Digit(c: char) {
    '0' <= c <= '9'
  }

  lemma DigitsDiffer(m: nat, n: nat)
    requires m < 10 && n < 10
    ensures Digit("0123456789"[n])
    ensures "0123456789"[m] == "0123456789"[n] <==> m == n
  {
    var digits := "0123456789";
    assert digits[0] == '0' && digits[1] == '1' && digits[2] == '2' && digits[3] == '3' && digits[4] == '4';
    assert digits[5] == '5' && digits[6] == '6' && digits[7] == '7' && digits[8] == '8' && digits[9] == '9';
  }

  lemma {:induction false} DecimalIsDigits(n: nat)
    ensures Decimal(n) != [] && forall c <- Decimal(n) :: Digit(c)
  {
    DigitsDiffer(0, n % 10);
    if n < 10 {
    } else {
      DecimalIsDigits(n / 10);
    }
  }

  lemma {:induction false} DecimalIsInjective(m: nat, n: nat)
    ensures Decimal(m) == Decimal(n) <==> m == n
  {
    if Decimal(m) == Decimal(n) {
      var (s, k) := (Decimal(m), |Decimal(m)| - 1);
      DigitsDiffer(m % 10, n % 10);
      assert s[k] == "0123456789"[m % 10] && s[k] == "0123456789"[n % 10];
      DecimalIsDigits(m / 10);
      DecimalIsDigits(n / 10);
      if m >= 10 && n >= 10 {
        assert s[..k] == Decimal(m / 10) && s[..k] == Decimal(n / 10);
        DecimalIsInjective(m / 10, n / 10);
      }
    }
  }

  lemma DecimalIsColonFree(n: nat)
    ensures ColonFree(Decimal(n))
  {
    DecimalIsDigits(n);
  }

  // For platforms without a colon, two keys agree exactly when task, generation, platform and tweet do.
  lemma TaskKeysAgreeExactlyWhen(task: nat, generation: nat, doc: Document, task': nat, generation': nat,
                                 doc': Document)
    requires ColonFree(doc.post.platform) && ColonFree(doc'.post.platform)
    ensures TaskObservationKey(task, generation, doc) == TaskObservationKey(task', generation', doc')
            <==> task == task' && generation == generation'
                 && doc.post.platform == doc'.post.platform && doc.tweetId == doc'.tweetId
  {
    KeyInParts(task, generation, doc);
    KeyInParts(task', generation', doc');
    var (g, g') := (Decimal(generation), Decimal(generation'));
    var (p, p') := (doc.post.platform + ":" + doc.tweetId, doc'.post.platform + ":" + doc'.tweetId);
    DecimalIsColonFree(task);
    DecimalIsColonFree(task');
    DecimalIsColonFree(generation);
    DecimalIsColonFree(generation');
    SplitAtColon("task", Decimal(task) + ":" + ("generation" + ":" + (g + ":" + p)),
                 "task", Decimal(task') + ":" + ("generation" + ":" + (g' + ":" + p')));
    SplitAtColon(Decimal(task), "generation" + ":" + (g + ":" + p),
                 Decimal(task'), "generation" + ":" + (g' + ":" + p'));
    SplitAtColon("generation", g + ":" + p, "generation", g' + ":" + p');
    SplitAtColon(g, p, g', p');
    SplitAtColon(doc.post.platform, doc.tweetId, doc'.post.platform, doc'.tweetId);
    DecimalIsInjective(task, task');
    DecimalIsInjective(generation, generation');
  }

  lemma KeyInParts(task: nat, generation: nat, doc: Document)
    ensures TaskObservationKey(task, generation, doc)
         == "task" + ":" + (Decimal(task) + ":" + ("generation" + ":" + (Decimal(generation) + ":"
            + (doc.post.platform + ":" + doc.tweetId))))
  {
    var (t, g, p, id) := (Decimal(task), Decimal(generation), doc.post.platform, doc.tweetId);
    assert "task:" == "task" + ":" && ":generation:" == ":" + "generation" + ":";
  }

  // Without a given key: platforms and tweets without a colon keep the keys of different captures apart.
  lemma DefaultKeysAgreeExactlyWhen(doc: Document, captured: Time, doc': Document, captured': Time, fns: TextFunctions)
    requires ColonFree(doc.post.platform) && ColonFree(doc'.post.platform)
    requires ColonFree(doc.tweetId) && ColonFree(doc'.tweetId)
    ensures ObservationKey(None, doc, captured, fns) == ObservationKey(None, doc', captured', fns)
            <==> doc.post.platform == doc'.post.platform && doc.tweetId == doc'.tweetId
                 && fns.isoFormat(captured) == fns.isoFormat(captured')
  {
    var (t, t') := (fns.isoFormat(captured), fns.isoFormat(captured'));
    assert ObservationKey(None, doc, captured, fns) == doc.post.platform + ":" + (doc.tweetId + ":" + t);
    assert ObservationKey(None, doc', captured', fns) == doc'.post.platform + ":" + (doc'.tweetId + ":" + t');
    SplitAtColon(doc.post.platform, doc.tweetId + ":" + t, doc'.post.platform, doc'.tweetId + ":" + t');
    SplitAtColon(doc.tweetId, t, doc'.tweetId, t');
  }
}
