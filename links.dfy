/**
 * The link finder's safety filter and reply (main.py lines 216-232): which
 * of the found Telegram links are shown, and how.
 */
module LinkSafety {
  import opened Strings
  import opened Lists
  import opened Tools
  import opened Prompts
  import opened Replies

  const AdultWords: seq<string> := ["sex", "porn", "leak", "viral", "အော", "လိုး"]
  const BlockedWords: seq<string> := ["sex", "porn"]

  /** `any(k in title.lower() for k in words)`. */
  predicate MentionsAny(title: string, words: seq<string>)
  {
    exists k :: k in words && Contains(Lower(title), k)
  }

  /**
   * Lines 218-226: in adult mode a title must mention an adult keyword; in
   * safe mode it must mention neither "sex" nor "porn".
   */
  predicate Safe(l: Link, adult: bool)
  {
    if adult then MentionsAny(l.title, AdultWords) else !MentionsAny(l.title, BlockedWords)
  }

  function SafeFor(adult: bool): Link -> bool
  {
    l => Safe(l, adult)
  }

  /** `valid_links` as lines 216-226 build it. */
  function SafeLinks(links: seq<Link>, adult: bool): seq<Link>
  {
    Filter(links, SafeFor(adult))
  }

  /** Lines 216-226. */
  method FilterLinks(links: seq<Link>, adult: bool) returns (valid: seq<Link>)
    ensures valid == SafeLinks(links, adult)
  {
    valid := [];
    for i := 0 to |links|
      invariant valid == SafeLinks(links[..i], adult)
    {
      var l := links[i];
      assert links[..i + 1] == links[..i] + [l];
      FilterSnoc(links[..i], l, SafeFor(adult));
      var titleLower := Lower(l.title);
      if adult {
        if exists k :: k in AdultWords && Contains(titleLower, k) {
          valid := valid + [l];
        } else {
          assert valid + [] == valid;
        }
      } else {
        if !exists k :: k in BlockedWords && Contains(titleLower, k) {
          valid := valid + [l];
        } else {
          assert valid + [] == valid;
        }
      }
    }
    assert links[..|links|] == links;
  }

  /**
   * The safety filter keeps exactly the links that pass it, in search order.
   * A safe-mode title never mentions "sex" or "porn", and an adult-mode one
   * always mentions an adult keyword.
   */
  lemma SafeLinksExactly(links: seq<Link>, adult: bool)
    ensures IsSubsequence(SafeLinks(links, adult), links)
    ensures forall l :: l in SafeLinks(links, adult) <==> l in links && Safe(l, adult)
  {
    FilterSubsequence(links, SafeFor(adult));
    forall l | l in links && Safe(l, adult) ensures l in SafeLinks(links, adult) {
      var i :| 0 <= i < |links| && links[i] == l;
      FilterComplete(links, SafeFor(adult), i);
    }
    forall l | l in SafeLinks(links, adult) ensures l in links {
      SubsequenceMembers(SafeLinks(links, adult), links, l);
    }
  }

  lemma SubsequenceMembers<T>(xs: seq<T>, ys: seq<T>, x: T)
    requires IsSubsequence(xs, ys) && x in xs
    ensures x in ys
  {
    var idx :| Embeds(idx, xs, ys);
    var i :| 0 <= i < |xs| && xs[i] == x;
    assert ys[idx[i]] == x;
  }

  /** Lines 228-232: a keyboard of the first six valid links, or an apology. */
  function LinkReply(valid: seq<Link>): Reply
  {
    if valid != [] then Keyboard(LinksFound, Buttons(Take(valid, 6))) else Say(NoLinks)
  }

  /**
   * The link reply is a keyboard exactly when some found link passes the
   * safety filter; it then has at most six rows of one button each, and every
   * button opens a found link that passes the filter, labelled by its title.
   */
  lemma LinkReplySafe(links: seq<Link>, adult: bool)
    ensures var r := LinkReply(SafeLinks(links, adult));
            && (r.Keyboard? <==> exists l :: l in links && Safe(l, adult))
            && (!r.Keyboard? ==> r == Say(NoLinks))
            && (r.Keyboard? ==> 1 <= |r.rows| <= 6 && forall i :: 0 <= i < |r.rows| ==>
                  |r.rows[i]| == 1 &&
                  exists l :: l in links && Safe(l, adult) && r.rows[i][0] == Button(Label(l.title), l.url))
  {
    var valid := SafeLinks(links, adult);
    SafeLinksExactly(links, adult);
    if valid != [] {
      assert valid[0] in valid;
      var shown := Take(valid, 6);
      forall i | 0 <= i < |shown|
        ensures exists l :: l in links && Safe(l, adult) && Buttons(shown)[i][0] == Button(Label(l.title), l.url)
      {
        assert shown[i] == valid[i] && valid[i] in valid;
      }
    } else {
      forall l | l in links ensures !Safe(l, adult) { }
    }
  }
}
