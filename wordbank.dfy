/** The word bank: the fixed seed table and the get-or-create loop that loads it. */
module WordBank {
  import opened Common

  /** A row of the Word table: its text, its level and three graduated hints. */
  datatype Word = Word(text: string, level: Level, hint1: string, hint2: string, hint3: string)

  /** The (text, level) pair that `get_or_create` looks a row up by. */
  predicate Matches(w: Word, text: string, level: Level)
  {
    w.text == text && w.level == level
  }

  predicate Has(rows: seq<Word>, text: string, level: Level)
  {
    exists i :: 0 <= i < |rows| && Matches(rows[i], text, level)
  }

  /** Word lengths per level, as the section comments of the table state them. */
  predicate LengthFits(w: Word)
  {
    match w.level
    case Easy => 4 <= |w.text| <= 5
    case Medium => |w.text| == 6
    case Hard => |w.text| >= 8
  }

  /** The easy section of the seed table: four- and five-letter words. */
  function EasyWords(): (ws: seq<Word>)
    ensures |ws| == 10
    ensures forall i :: 0 <= i < 10 ==> ws[i].level == Easy && 4 <= |ws[i].text| <= 5
    ensures forall i :: 0 <= i < 10 ==> ws[i].hint1 != "" && ws[i].hint2 != "" && ws[i].hint3 != ""
    ensures forall i, j :: 0 <= i < j < 10 ==> ws[i].text != ws[j].text
  {
    [
      Word("cake", Easy, "یه دسر شیرین", "توی جشن‌ها سرو می‌شه", "معمولاً خامه داره"),
      Word("book", Easy, "می‌خونیش", "صفحه داره", "توی کتابخونه پیدا می‌شه"),
      Word("tree", Easy, "بلند رشد می‌کنه", "برگ داره", "سایه می‌ده"),
      Word("fish", Easy, "توی آب زندگی می‌کنه", "شنا می‌کنه", "باله داره"),
      Word("star", Easy, "شب می‌درخشه", "توی آسمونه", "چشمک می‌زنه"),
      Word("bird", Easy, "بال داره", "پرواز می‌کنه", "آواز می‌خونه"),
      Word("moon", Easy, "شب دیده می‌شه", "دور زمین می‌چرخه", "دهانه داره"),
      Word("ship", Easy, "روی آب حرکت می‌کنه", "بار حمل می‌کنه", "کاپیتان داره"),
      Word("ring", Easy, "توی انگشت می‌ندازی", "گرد و حلقه‌ست", "معمولاً براقه"),
      Word("desk", Easy, "برای درس خوندن", "کشو داره", "توی کلاسه")
    ]
  }

  /** The medium section of the seed table: six-letter words. */
  function MediumWords(): (ws: seq<Word>)
    ensures |ws| == 10
    ensures forall i :: 0 <= i < 10 ==> ws[i].level == Medium && |ws[i].text| == 6
    ensures forall i :: 0 <= i < 10 ==> ws[i].hint1 != "" && ws[i].hint2 != "" && ws[i].hint3 != ""
    ensures forall i, j :: 0 <= i < j < 10 ==> ws[i].text != ws[j].text
  {
    [
      Word("puzzle", Medium, "یه بازی فکری", "قطعه‌قطعه‌ست", "باید حلش کنی"),
      Word("guitar", Medium, "یه ساز موسیقی", "سیم داره", "با انگشت نواخته می‌شه"),
      Word("window", Medium, "نور می‌ده", "شیشه‌ایه", "می‌تونی بازش کنی"),
      Word("bridge", Medium, "از رودخونه رد می‌شه", "دو طرف رو وصل می‌کنه", "ماشین روش می‌ره"),
      Word("camera", Medium, "عکس می‌گیره", "لنز داره", "خاطره ثبت می‌کنه"),
      Word("forest", Medium, "پر از درخته", "حیات وحش داره", "سبز و پرپشته"),
      Word("market", Medium, "محل خرید", "غذا می‌فروشن", "معمولاً شلوغه"),
      Word("rocket", Medium, "به فضا می‌ره", "بالا پرتاب می‌شه", "فضانوردا استفاده می‌کنن"),
      Word("pencil", Medium, "برای نوشتن", "پاک‌کن داره", "چوبیه"),
      Word("singer", Medium, "آهنگ اجرا می‌کنه", "با صداش", "روی صحنه‌ست")
    ]
  }

  /** The hard section of the seed table: words of eight letters or more. */
  function HardWords(): (ws: seq<Word>)
    ensures |ws| == 10
    ensures forall i :: 0 <= i < 10 ==> ws[i].level == Hard && |ws[i].text| >= 8
    ensures forall i :: 0 <= i < 10 ==> ws[i].hint1 != "" && ws[i].hint2 != "" && ws[i].hint3 != ""
    ensures forall i, j :: 0 <= i < j < 10 ==> ws[i].text != ws[j].text
  {
    [
      Word("strawberry", Hard, "یه میوه قرمز", "دونه‌های ریز داره", "شیرین و آبداره"),
      Word("television", Hard, "برنامه نشون می‌ده", "صفحه داره", "توی پذیراییه"),
      Word("butterfly", Hard, "بال‌های رنگارنگ داره", "با نرمی پرواز می‌کنه", "از پیله میاد"),
      Word("pineapple", Hard, "میوه گرمسیریه", "بیرونش تیغ‌تیغه", "زرد و شیرینه"),
      Word("microscope", Hard, "توی علم استفاده می‌شه", "چیزای ریز رو بزرگ می‌کنه", "برای چیزای کوچیکه"),
      Word("helicopter", Hard, "با پره پرواز می‌کنه", "توی هوا معلقه", "برای نجات استفاده می‌شه"),
      Word("newspaper", Hard, "اخبار روز", "روی کاغذ چاپ می‌شه", "تیتر داره"),
      Word("telescope", Hard, "ستاره‌ها رو می‌بینی", "توی نجوم استفاده می‌شه", "لنز داره"),
      Word("volleyball", Hard, "یه ورزش تیمی", "با تور بازی می‌شه", "با دست می‌زنن"),
      Word("flashlight", Hard, "نور می‌ده", "توی تاریکی استفاده می‌شه", "باتری داره")
    ]
  }

  /** The seed table: ten easy, ten medium and ten hard words, in that order, each with three hints. */
  function SeedList(): (ws: seq<Word>)
    ensures |ws| == 30
    ensures forall i :: 0 <= i < 30 ==> ws[i].level == (if i < 10 then Easy else if i < 20 then Medium else Hard)
    ensures forall i :: 0 <= i < 30 ==> ws[i].hint1 != "" && ws[i].hint2 != "" && ws[i].hint3 != ""
    ensures forall i :: 0 <= i < 30 ==> LengthFits(ws[i])
    ensures forall i, j :: 0 <= i < j < 30 ==> ws[i].text != ws[j].text
  {
    var e, m, h := EasyWords(), MediumWords(), HardWords();
    var ws := e + m + h;
    assert forall i :: 0 <= i < 30 ==> ws[i] == (if i < 10 then e[i] else if i < 20 then m[i - 10] else h[i - 20]);
    ws
  }

  /** Two rows share the text and level: `get_or_create` raises `MultipleObjectsReturned`. */
  predicate Ambiguous(rows: seq<Word>, text: string, level: Level)
  {
    exists i, j :: 0 <= i < j < |rows| && Matches(rows[i], text, level) && Matches(rows[j], text, level)
  }

  /** What `get_or_create` returns: the row and whether it was created, or the lookup's error. */
  datatype Fetched = Fetched(row: Word, created: bool) | MultipleObjectsReturned

  /** Every row after the first `|base|` is the only row of the table with its text and level. */
  ghost predicate Fresh(base: seq<Word>, rows: seq<Word>)
  {
    forall i, j :: |base| <= i < |rows| && 0 <= j < |rows| && i != j ==> !Matches(rows[j], rows[i].text, rows[i].level)
  }

  /** Appending a row whose text and level were absent keeps the added rows unique. */
  lemma FreshGrows(base: seq<Word>, rows: seq<Word>, w: Word)
    requires Fresh(base, rows) && !Has(rows, w.text, w.level) && |base| <= |rows|
    ensures Fresh(base, rows + [w])
  {
    var rows' := rows + [w];
    forall i, j | |base| <= i < |rows'| && 0 <= j < |rows'| && i != j
      ensures !Matches(rows'[j], rows'[i].text, rows'[i].level)
    {
      if i == |rows| {
        assert rows'[j] == rows[j];
      } else if j == |rows| {
        assert !Matches(rows[i], w.text, w.level);
      } else {
        assert rows'[i] == rows[i] && rows'[j] == rows[j];
      }
    }
  }

  /** With only unique rows added, two rows sharing a text and level were both there before. */
  lemma AmbiguityIsOld(base: seq<Word>, rows: seq<Word>, text: string, level: Level)
    requires |base| <= |rows| && rows[..|base|] == base && Fresh(base, rows)
    ensures Ambiguous(rows, text, level) <==> Ambiguous(base, text, level)
  {
    if Ambiguous(rows, text, level) {
      var i, j :| 0 <= i < j < |rows| && Matches(rows[i], text, level) && Matches(rows[j], text, level);
      assert j < |base|;
      assert base[i] == rows[i] && base[j] == rows[j];
    }
    if Ambiguous(base, text, level) {
      var i, j :| 0 <= i < j < |base| && Matches(base[i], text, level) && Matches(base[j], text, level);
      assert rows[i] == base[i] && rows[j] == base[j];
    }
  }

  /** The Word table, which grows row by row. */
  class WordTable {
    var rows: seq<Word>

    constructor (initial: seq<Word>)
      ensures rows == initial
    {
      rows := initial;
    }

    /**
     * `Word.objects.get_or_create(text=…, level=…, defaults={hints})`: the hints apply only on
     * create, and two rows with the same text and level raise `MultipleObjectsReturned`.
     */
    method GetOrCreate(text: string, level: Level, hint1: string, hint2: string, hint3: string)
      returns (r: Fetched)
      modifies this
      ensures r.MultipleObjectsReturned? <==> Ambiguous(old(rows), text, level)
      ensures r.MultipleObjectsReturned? ==> rows == old(rows)
      ensures r.Fetched? ==> Has(rows, text, level) && (r.created <==> !Has(old(rows), text, level))
      ensures r.Fetched? && r.created ==> rows == old(rows) + [r.row] && r.row == Word(text, level, hint1, hint2, hint3)
      ensures r.Fetched? && !r.created ==> rows == old(rows) && r.row in rows && Matches(r.row, text, level)
    {
      if Ambiguous(rows, text, level) {
        return MultipleObjectsReturned;
      }
      if Has(rows, text, level) {
        var i :| 0 <= i < |rows| && Matches(rows[i], text, level);
        r := Fetched(rows[i], false);
      } else {
        r := Fetched(Word(text, level, hint1, hint2, hint3), true);
        rows := rows + [r.row];
        assert Matches(rows[|rows| - 1], text, level);
      }
    }

    /**
     * The loop of `seed_words`: get-or-create every entry of `words`, in order, stopping at the
     * first lookup that finds two rows. Each row it adds is the only one with its text and level.
     */
    method GetOrCreateAll(words: seq<Word>) returns (ok: bool)
      modifies this
      ensures ok <==> forall w :: w in words ==> !Ambiguous(old(rows), w.text, w.level)
      ensures ok ==> forall w :: w in words ==> Has(rows, w.text, w.level) && !Ambiguous(rows, w.text, w.level)
      ensures |rows| >= |old(rows)| && rows[..|old(rows)|] == old(rows)
      ensures forall i :: |old(rows)| <= i < |rows| ==> rows[i] in words
      ensures (forall w :: w in words ==> Has(old(rows), w.text, w.level)) ==> rows == old(rows)
    {
      var k := 0;
      while k < |words|
        invariant 0 <= k <= |words|
        invariant forall j :: 0 <= j < k ==> Has(rows, words[j].text, words[j].level)
        invariant forall j :: 0 <= j < k ==> !Ambiguous(old(rows), words[j].text, words[j].level)
        invariant |rows| >= |old(rows)| && rows[..|old(rows)|] == old(rows)
        invariant forall i :: |old(rows)| <= i < |rows| ==> rows[i] in words
        invariant Fresh(old(rows), rows)
        invariant (forall w :: w in words ==> Has(old(rows), w.text, w.level)) ==> rows == old(rows)
      {
        var w := words[k];
        ghost var before := rows;
        AmbiguityIsOld(old(rows), rows, w.text, w.level);
        var r := GetOrCreate(w.text, w.level, w.hint1, w.hint2, w.hint3);
        if r.MultipleObjectsReturned? {
          assert w in words && Ambiguous(old(rows), w.text, w.level);
          return false;
        }
        if r.created {
          FreshGrows(old(rows), before, r.row);
        }
        forall j | 0 <= j < k ensures Has(rows, words[j].text, words[j].level) {
          var i :| 0 <= i < |before| && Matches(before[i], words[j].text, words[j].level);
          assert rows[i] == before[i];
        }
        k := k + 1;
      }
      forall w | w in words ensures Has(rows, w.text, w.level) && !Ambiguous(rows, w.text, w.level) {
        var j :| 0 <= j < |words| && words[j] == w;
        AmbiguityIsOld(old(rows), rows, w.text, w.level);
      }
      ok := true;
    }

    /**
     * `seed_words`, decorated `@transaction.atomic`: load the seed table, or, when a lookup raises,
     * roll every row it added back. `ok` is false exactly when it raises.
     */
    method SeedWords() returns (ok: bool)
      modifies this
      ensures ok <==> forall w :: w in SeedList() ==> !Ambiguous(old(rows), w.text, w.level)
      ensures !ok ==> rows == old(rows)
      ensures ok ==> forall w :: w in SeedList() ==> Has(rows, w.text, w.level) && !Ambiguous(rows, w.text, w.level)
      ensures |rows| >= |old(rows)| && rows[..|old(rows)|] == old(rows)
      ensures forall i :: |old(rows)| <= i < |rows| ==> rows[i] in SeedList()
      ensures (forall w :: w in SeedList() ==> Has(old(rows), w.text, w.level)) ==> rows == old(rows)
    {
      var saved := rows;
      ok := GetOrCreateAll(SeedList());
      if !ok {
        rows := saved;
      }
    }

    /** Running `seed_words` a second time adds no row and rewrites none, whether or not the first run raised. */
    method SeedTwice() returns (addedBySecondRun: nat)
      modifies this
      ensures addedBySecondRun == 0
      ensures (forall w :: w in SeedList() ==> !Ambiguous(old(rows), w.text, w.level)) ==>
                forall w :: w in SeedList() ==> Has(rows, w.text, w.level)
    {
      var first := SeedWords();
      var once := rows;
      var second := SeedWords();
      assert rows == once;
      addedBySecondRun := |rows| - |once|;
    }
  }
}
