/** The badge wall: the user's badge names and point and streak totals, read from the
    store, and the image path each badge name is shown with. */
module Badges {
  import opened Wrappers
  import opened Text

  const StreakSuffix := "-Day Streak"

  /** The length of the longest run of ASCII digits at the start of `s`. */
  function LeadingDigits(s: string): (n: nat)
    ensures n <= |s| && AllDigits(s[..n])
    ensures n == |s| || !IsDigit(s[n])
  {
    if s != [] && IsDigit(s[0]) then
      var n := 1 + LeadingDigits(s[1..]);
      assert s[..n] == [s[0]] + s[1..][..n - 1];
      n
    else 0
  }

  /** `badgeName.match(/^(\d+)-Day Streak$/)`, giving the captured digits. Since
      `-` is not a digit, `\d+` can only match the whole leading run of digits. */
  function StreakDigits(name: string): Option<string> {
    var n := LeadingDigits(name);
    if 1 <= n && name[n..] == StreakSuffix then Some(name[..n]) else None
  }

  /** The pattern matches exactly the names made of one or more digits followed by
      "-Day Streak" and nothing else, and captures those digits. */
  lemma StreakDigitsIff(name: string, digits: string)
    ensures StreakDigits(name) == Some(digits) <==>
            digits != [] && AllDigits(digits) && name == digits + StreakSuffix
  {
    if digits != [] && AllDigits(digits) && name == digits + StreakSuffix {
      var n := LeadingDigits(name);
      assert name[|digits|] == '-';
      assert n == |digits|;
      assert name[..n] == digits && name[n..] == StreakSuffix;
    }
    if StreakDigits(name) == Some(digits) {
      var n := LeadingDigits(name);
      assert name == name[..n] + name[n..];
    }
  }

  /** `getBadgeImage`. */
  function BadgeImage(name: string): string {
    if name == "Day 1 Start" then "/badges/day1_start.png"
    else if name == "Ultimate Finisher" then "/badges/ultimate_finisher.png"
    else
      var m := StreakDigits(name);
      if m.Some? then "/badges/streak_" + m.value + ".png" else "/badges/default.png"
  }

  /** The four kinds of badge name and the image each is shown with: the two named
      badges, a streak of any digit string (kept verbatim, leading zeros included),
      and the default for everything else, such as a streak name with text around it. */
  lemma BadgeImageCases(name: string)
    ensures name == "Day 1 Start" ==> BadgeImage(name) == "/badges/day1_start.png"
    ensures name == "Ultimate Finisher" ==> BadgeImage(name) == "/badges/ultimate_finisher.png"
    ensures forall d :: d != [] && AllDigits(d) && name == d + StreakSuffix ==>
              BadgeImage(name) == "/badges/streak_" + d + ".png"
    ensures name != "Day 1 Start" && name != "Ultimate Finisher" &&
            (forall d :: !(d != [] && AllDigits(d) && name == d + StreakSuffix)) ==>
              BadgeImage(name) == "/badges/default.png"
  {
    forall d | d != [] && AllDigits(d) && name == d + StreakSuffix
      ensures BadgeImage(name) == "/badges/streak_" + d + ".png"
    {
      StreakDigitsIff(name, d);
      assert name[0] == d[0];
      assert name != "Day 1 Start" && name != "Ultimate Finisher";
    }
    if StreakDigits(name).Some? {
      StreakDigitsIff(name, StreakDigits(name).value);
    }
  }

  /** Distinct streak badges are shown with distinct images. */
  lemma StreakImagesDistinct(a: string, b: string)
    requires StreakDigits(a).Some? && StreakDigits(b).Some? && a != b
    ensures BadgeImage(a) != BadgeImage(b)
  {
    var da, db := StreakDigits(a).value, StreakDigits(b).value;
    StreakDigitsIff(a, da);
    StreakDigitsIff(b, db);
    assert a[0] == da[0] && b[0] == db[0];
    var pa, pb := "/badges/streak_" + da + ".png", "/badges/streak_" + db + ".png";
    assert pa[15..|pa| - 4] == da;
    assert pb[15..|pb| - 4] == db;
  }

  /** A row of the `badges` table as selected. */
  datatype BadgeRow = BadgeRow(badgeName: string)

  /** The `users` row's `points, streak`; a missing value is `None`. */
  datatype UserStats = UserStats(points: Option<int>, streak: Option<int>)

  /** `data.map((b) => b.badge_name)`: the names in row order. */
  function BadgeNames(rows: seq<BadgeRow>): (names: seq<string>)
    ensures |names| == |rows|
    ensures forall i :: 0 <= i < |rows| ==> names[i] == rows[i].badgeName
  {
    if rows == [] then [] else [rows[0].badgeName] + BadgeNames(rows[1..])
  }

  /** `x || 0` on a number: a missing value and zero both give zero. */
  function OrZero(x: Option<int>): (n: int)
    ensures n == 0 <==> x.None? || x.value == 0
    ensures x.Some? ==> n == x.value
  {
    if x.Some? && x.value != 0 then x.value else 0
  }

  class BadgeWall {
    const userId: string
    var badges: seq<string>
    var points: int
    var streak: int

    constructor (userId: string)
      ensures this.userId == userId && badges == [] && points == 0 && streak == 0
    {
      this.userId := userId;
      badges := [];
      points := 0;
      streak := 0;
    }

    /** The effect on `userId`: with an empty id nothing is queried or changed;
        otherwise rows replace the badge list and a stats row sets both totals,
        while a reply without data leaves its part unchanged. */
    method Load(badgeReply: Option<seq<BadgeRow>>, statsReply: Option<UserStats>) returns (queried: bool)
      modifies this
      ensures queried <==> userId != ""
      ensures badges == if queried && badgeReply.Some? then BadgeNames(badgeReply.value) else old(badges)
      ensures points == if queried && statsReply.Some? then OrZero(statsReply.value.points) else old(points)
      ensures streak == if queried && statsReply.Some? then OrZero(statsReply.value.streak) else old(streak)
    {
      queried := userId != "";
      if !queried {
        return;
      }
      if badgeReply.Some? {
        badges := BadgeNames(badgeReply.value);
      }
      if statsReply.Some? {
        points := OrZero(statsReply.value.points);
        streak := OrZero(statsReply.value.streak);
      }
    }

    /** The image shown for each badge, in order. */
    function Images(): (images: seq<string>)
      reads this
      ensures |images| == |badges|
      ensures forall i :: 0 <= i < |badges| ==> images[i] == BadgeImage(badges[i])
    {
      seq(|badges|, i requires 0 <= i < |badges| reads this => BadgeImage(badges[i]))
    }
  }
}
