/** The browser's constraint validation of an `<input type="email" required>` field, which
    blocks the registration form's submit event before its handler runs: the value must be
    a valid e-mail address in the sense of the HTML Living Standard (section 4.10.5.1.5,
    "Email state"), which the standard gives as the ABNF
    1*( atext / "." ) "@" label *( "." label ), a label being 1 to 63 letters, digits and
    hyphens that starts and ends with a letter or digit. */
module Email {

  predicate AsciiAlphanumeric(c: char)
  {
    'a' <= c <= 'z' || 'A' <= c <= 'Z' || '0' <= c <= '9'
  }

  /** The characters allowed before the '@': letters, digits, '.' and the atext symbols. */
  predicate LocalChar(c: char)
  {
    AsciiAlphanumeric(c) || c in ".!#$%&'*+/=?^_`{|}~-"
  }

  /** One domain label. */
  predicate Label(l: string)
  {
    1 <= |l| <= 63 && AsciiAlphanumeric(l[0]) && AsciiAlphanumeric(l[|l| - 1]) &&
    forall i :: 0 <= i < |l| ==> AsciiAlphanumeric(l[i]) || l[i] == '-'
  }

  /** One or more labels separated by single dots. */
  predicate Domain(d: string)
    decreases |d|
  {
    Label(d) || exists k :: 0 < k < |d| && d[k] == '.' && Label(d[..k]) && Domain(d[k + 1..])
  }

  /** A valid e-mail address: a non-empty local part, '@', a domain. */
  predicate ValidEmail(s: string)
  {
    exists k :: 0 < k < |s| && s[k] == '@' && (forall i :: 0 <= i < k ==> LocalChar(s[i])) && Domain(s[k + 1..])
  }

  /** No label holds an '@'. */
  lemma LabelHasNoAt(l: string, j: int)
    requires Label(l) && 0 <= j < |l|
    ensures l[j] != '@'
  {
    assert AsciiAlphanumeric(l[j]) || l[j] == '-';
  }

  /** No domain holds an '@'. */
  lemma {:induction false} DomainHasNoAt(d: string, j: int)
    requires Domain(d) && 0 <= j < |d|
    ensures d[j] != '@'
    decreases |d|, 1
  {
    if Label(d) {
      LabelHasNoAt(d, j);
    } else {
      var k :| 0 < k < |d| && d[k] == '.' && Label(d[..k]) && Domain(d[k + 1..]);
      SplitDomainHasNoAt(d, k, j);
    }
  }

  /** A label, a dot and a domain hold no '@'. */
  lemma {:induction false} SplitDomainHasNoAt(d: string, k: int, j: int)
    requires 0 < k < |d| && d[k] == '.' && Label(d[..k]) && Domain(d[k + 1..])
    requires 0 <= j < |d|
    ensures d[j] != '@'
    decreases |d|, 0
  {
    if j < k {
      LabelHasNoAt(d[..k], j);
      assert d[..k][j] == d[j];
    } else if j > k {
      var rest := d[k + 1..];
      assert rest[j - k - 1] == d[j];
      DomainHasNoAt(rest, j - k - 1);
    }
  }

  /** The local part holds no '@'. */
  lemma LocalPartHasNoAt(s: string, k: int, j: int)
    requires 0 <= j < k <= |s|
    requires forall i :: 0 <= i < k ==> LocalChar(s[i])
    ensures s[j] != '@'
  {
    assert LocalChar(s[j]);
    assert !LocalChar('@');
  }

  /** A valid address is never empty, and holds exactly one '@', neither first nor last. */
  lemma ValidEmailHasOneAt(s: string)
    requires ValidEmail(s)
    ensures s != ""
    ensures exists k :: 0 < k < |s| - 1 && s[k] == '@' && forall j :: 0 <= j < |s| && s[j] == '@' ==> j == k
  {
    var k :| 0 < k < |s| && s[k] == '@' && (forall i :: 0 <= i < k ==> LocalChar(s[i])) && Domain(s[k + 1..]);
    assert k < |s| - 1 by {
      var d := s[k + 1..];
      assert Label(d) || exists m :: 0 < m < |d| && d[m] == '.';
    }
    forall j | 0 <= j < |s| && s[j] == '@'
      ensures j == k
    {
      if j < k {
        LocalPartHasNoAt(s, k, j);
      } else if j > k {
        DomainHasNoAt(s[k + 1..], j - k - 1);
      }
    }
  }

  /** An ordinary address passes. */
  lemma ValidEmailExample()
    ensures ValidEmail("ana@banda.es")
  {
    var s := "ana@banda.es";
    assert Label(s[4..][6..]);
    assert Domain(s[4..]) by {
      assert s[4..][..5] == "banda";
      assert Label(s[4..][..5]);
      assert Domain(s[4..][6..]);
    }
    assert s[3] == '@';
  }

  /** A name without '@', an address without a domain or without a local part, and the
      empty string do not pass. */
  lemma InvalidEmailExamples()
    ensures !ValidEmail("ana") && !ValidEmail("ana@") && !ValidEmail("@banda.es") && !ValidEmail("")
  {
    var t := "ana@";
    forall k | 0 < k < |t| && t[k] == '@'
      ensures !Domain(t[k + 1..])
    {
      assert t[k + 1..] == [];
    }
  }
}
