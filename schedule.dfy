/** The scheduling arithmetic of the booking routes: the end instant of a booking,
    the description mirrored into the calendar, and the conflict scan run before
    a meeting is moved. */
module Schedule {
  import opened Upstream

  const SecondsPerMinute := 60

  /** Indentation of the description lines, which differs between the two routes. */
  const CreateIndent := 20
  const CreateClosing := 16
  const RescheduleIndent := 8
  const RescheduleClosing := 8

  /** The instant `duration` minutes after `start`. */
  function EndOf(start: int, duration: int): (end: int)
    ensures end - start == duration * SecondsPerMinute
    ensures duration >= 0 ==> start <= end
  {
    start + duration * SecondsPerMinute
  }

  function Spaces(n: nat): (s: string)
    ensures |s| == n
    ensures forall k :: 0 <= k < n ==> s[k] == ' '
  {
    if n == 0 then "" else Spaces(n - 1) + " "
  }

  /** One description line: a line break, the indentation, a caption and a value. */
  function Line(indent: nat, caption: string, value: string): string
  {
    "\n" + Spaces(indent) + caption + value
  }

  /** Where a line's value sits: right after the break, indentation and caption. */
  lemma {:induction false} LineHoldsValue(indent: nat, caption: string, value: string)
    ensures |Line(indent, caption, value)| == 1 + indent + |caption| + |value|
    ensures Line(indent, caption, value)[1 + indent + |caption|..] == value
  {
    var prefix := "\n" + Spaces(indent) + caption;
    assert Line(indent, caption, value) == prefix + value;
    assert |prefix| == 1 + indent + |caption|;
  }

  /** Offset of the password in a description with the given indentation. */
  function PasswordAt(indent: nat): nat
  {
    1 + indent + |"Password: "|
  }

  /** Offset of the start URL, after a password of `passwordLength` characters. */
  function StartUrlAt(indent: nat, passwordLength: nat): nat
  {
    PasswordAt(indent) + passwordLength + 1 + indent + |"Start Url: "|
  }

  /** Offset of the join URL, after the password and the start URL. */
  function JoinUrlAt(indent: nat, passwordLength: nat, startUrlLength: nat): nat
  {
    StartUrlAt(indent, passwordLength) + startUrlLength + 1 + indent + |"Join Url: "|
  }

  /** A slice of the right operand of a concatenation, read through the concatenation. */
  lemma SliceOfRight(x: string, y: string, i: nat, n: nat)
    requires i + n <= |y|
    ensures (x + y)[|x| + i..|x| + i + n] == y[i..i + n]
  {
    assert (x + y)[|x|..] == y;
    assert (x + y)[|x| + i..|x| + i + n] == (x + y)[|x|..][i..i + n];
  }

  /** Three values that end three consecutive pieces are read back, in order, from
      the concatenation of the pieces and a tail. */
  lemma ThreeTails(l1: string, l2: string, l3: string, tail: string,
                   a1: nat, a2: nat, a3: nat, v1: string, v2: string, v3: string)
    requires a1 <= |l1| && l1[a1..] == v1
    requires a2 <= |l2| && l2[a2..] == v2
    requires a3 <= |l3| && l3[a3..] == v3
    ensures var d := l1 + l2 + l3 + tail;
      d[a1..a1 + |v1|] == v1 &&
      d[|l1| + a2..|l1| + a2 + |v2|] == v2 &&
      d[|l1| + |l2| + a3..|l1| + |l2| + a3 + |v3|] == v3
  {
    var d := l1 + l2 + l3 + tail;
    assert d == l1 + (l2 + l3 + tail) == (l1 + l2) + (l3 + tail);
    SliceOfRight([], d, a1, |v1|);
    assert [] + d == d;
    assert d[..|l1|] == l1;
    assert d[a1..a1 + |v1|] == d[..|l1|][a1..];
    SliceOfRight(l1, l2 + l3 + tail, a2, |v2|);
    assert (l2 + l3 + tail)[a2..a2 + |v2|] == l2[a2..] by {
      assert (l2 + l3 + tail)[..|l2|] == l2;
    }
    SliceOfRight(l1 + l2, l3 + tail, a3, |v3|);
    assert (l3 + tail)[a3..a3 + |v3|] == l3[a3..] by {
      assert (l3 + tail)[..|l3|] == l3;
    }
  }

  /** Whether `d` holds the password, then the start URL, then the join URL, each
      intact at the offsets the indentation fixes, and none overlapping the next. */
  predicate CarriesSecrets(d: string, indent: nat, password: string, startUrl: string, joinUrl: string)
  {
    var p, s, j := PasswordAt(indent), StartUrlAt(indent, |password|),
                   JoinUrlAt(indent, |password|, |startUrl|);
    p + |password| < s && s + |startUrl| < j && j + |joinUrl| < |d| &&
    d[p..p + |password|] == password &&
    d[s..s + |startUrl|] == startUrl &&
    d[j..j + |joinUrl|] == joinUrl
  }

  /** The event description built from a meeting's password, start URL and join URL:
      three indented lines and a closing indentation. */
  function Description(indent: nat, closing: nat, password: string, startUrl: string, joinUrl: string): (d: string)
    ensures CarriesSecrets(d, indent, password, startUrl, joinUrl)
    ensures |d| == JoinUrlAt(indent, |password|, |startUrl|) + |joinUrl| + 1 + closing
  {
    var l1 := Line(indent, "Password: ", password);
    var l2 := Line(indent, "Start Url: ", startUrl);
    var l3 := Line(indent, "Join Url: ", joinUrl);
    LineHoldsValue(indent, "Password: ", password);
    LineHoldsValue(indent, "Start Url: ", startUrl);
    LineHoldsValue(indent, "Join Url: ", joinUrl);
    ThreeTails(l1, l2, l3, "\n" + Spaces(closing), 1 + indent + 10, 1 + indent + 11, 1 + indent + 10,
               password, startUrl, joinUrl);
    l1 + l2 + l3 + "\n" + Spaces(closing)
  }

  /** A listed event blocks a move when it is not the moved meeting's own event and
      the new end instant lies strictly inside it. Only the end instant is tested. */
  function Blocks(item: CalendarItem, meetingId: string, toDate: int): (b: bool)
    ensures b ==> item.id != meetingId
    // only an event of positive length can block, and then it overlaps any span ending at toDate
    ensures b ==> item.start < item.end && forall fromDate :: fromDate < toDate ==> Overlaps(item, fromDate, toDate)
    // and every other event that has the new end strictly inside it blocks
    ensures item.id != meetingId && item.start < toDate < item.end ==> b
  {
    item.id != meetingId && item.start < toDate < item.end
  }

  /** The verdict of the conflict scan: a missing listing, or a listing none of
      whose events blocks, leaves the slot free. */
  predicate IsFree(items: Option<seq<CalendarItem>>, meetingId: string, toDate: int)
  {
    items.None? || forall k :: 0 <= k < |items.value| ==> !Blocks(items.value[k], meetingId, toDate)
  }

  /** The conflict scan: walks every listed event and clears `free` on each blocker. */
  method ScanFree(items: Option<seq<CalendarItem>>, meetingId: string, toDate: int) returns (free: bool)
    ensures free <==> IsFree(items, meetingId, toDate)
  {
    free := true;
    if items.Some? && |items.value| > 0 {
      var events := items.value;
      var i := 0;
      while i < |events|
        invariant 0 <= i <= |events|
        invariant free <==> forall k :: 0 <= k < i ==> !Blocks(events[k], meetingId, toDate)
      {
        if events[i].id != meetingId && events[i].start < toDate < events[i].end {
          free := false;
        }
        i := i + 1;
      }
    }
  }

  /** The listed events other than the moved meeting's own. */
  function Others(items: seq<CalendarItem>, meetingId: string): (r: seq<CalendarItem>)
    ensures |r| <= |items|
    ensures forall k :: 0 <= k < |r| ==> r[k].id != meetingId
  {
    if items == [] then []
    else if items[0].id == meetingId then Others(items[1..], meetingId)
    else [items[0]] + Others(items[1..], meetingId)
  }

  /** The scan over a non-empty listing: its first event, then the rest. */
  lemma IsFreeCons(x: CalendarItem, rest: seq<CalendarItem>, meetingId: string, toDate: int)
    ensures IsFree(Some([x] + rest), meetingId, toDate) <==>
            !Blocks(x, meetingId, toDate) && IsFree(Some(rest), meetingId, toDate)
  {
    var s := [x] + rest;
    if IsFree(Some(s), meetingId, toDate) {
      assert !Blocks(s[0], meetingId, toDate);
      forall k | 0 <= k < |rest| ensures !Blocks(rest[k], meetingId, toDate) {
        assert s[k + 1] == rest[k];
      }
    }
    if !Blocks(x, meetingId, toDate) && IsFree(Some(rest), meetingId, toDate) {
      forall k | 0 <= k < |s| ensures !Blocks(s[k], meetingId, toDate) {
        if k > 0 {
          assert s[k] == rest[k - 1];
        }
      }
    }
  }

  /** The meeting's own event never decides the scan: dropping it from the listing
      leaves the verdict unchanged, whatever its times. */
  lemma {:induction false} OwnEventIgnored(items: seq<CalendarItem>, meetingId: string, toDate: int)
    ensures IsFree(Some(items), meetingId, toDate) == IsFree(Some(Others(items, meetingId)), meetingId, toDate)
    decreases |items|
  {
    if items != [] {
      var tail := items[1..];
      assert items == [items[0]] + tail;
      OwnEventIgnored(tail, meetingId, toDate);
      IsFreeCons(items[0], tail, meetingId, toDate);
      if items[0].id != meetingId {
        IsFreeCons(items[0], Others(tail, meetingId), meetingId, toDate);
      }
    }
  }

  /** Half-open overlap of a listed event with the span [fromDate, toDate). */
  predicate Overlaps(item: CalendarItem, fromDate: int, toDate: int)
  {
    item.start < toDate && fromDate < item.end
  }

  /** The end-point scan is weaker than an overlap test: a span that overlaps no
      other event is always found free. */
  lemma OverlapFreeIsScanFree(items: seq<CalendarItem>, meetingId: string, fromDate: int, toDate: int)
    requires fromDate < toDate
    requires forall k :: 0 <= k < |items| && items[k].id != meetingId ==> !Overlaps(items[k], fromDate, toDate)
    ensures IsFree(Some(items), meetingId, toDate)
  {
  }

  /** The converse fails: another event occupying exactly the new span does not
      block it, because the new end instant is that event's own end. */
  lemma IdenticalSpanPassesScan(other: CalendarItem, meetingId: string, start: int, duration: int)
    requires other.id != meetingId && duration > 0
    requires other.start == start && other.end == EndOf(start, duration)
    ensures Overlaps(other, start, EndOf(start, duration))
    ensures IsFree(Some([other]), meetingId, EndOf(start, duration))
  {
  }
}
