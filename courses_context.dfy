/**
 * The courses provider: the catalogue built from two public feeds, the list of
 * bookmarked course snapshots with its toggle, and the persistence of that list
 * in the general store under one key.
 */
module Courses {
  import opened Wrappers
  import opened Text
  import opened KeyValue
  import opened Api

  datatype Course = Course(id: string, title: string, description: string, instructor: string, price: int)

  /** The fields of a random-user record the catalogue reads. */
  datatype RandomUser = RandomUser(name: string)
  /** The fields of a random-product record the catalogue reads. */
  datatype Product = Product(title: string, description: string, price: int)

  /** The `data` field of a feed response: an array, or anything else. */
  datatype Listing<T> = Array(items: seq<T>) | NotArray
  datatype Feed<T> = Feed(data: Listing<T>)

  /** A value of `Math.floor(Math.random() * 100)`. */
  type Draw = d: nat | d < 100

  // ---------------------------------------------------------------------------
  // Lists of courses

  /** `courses.some(c => c.id === id)`. */
  predicate HasId(courses: seq<Course>, id: string)
  {
    exists c :: c in courses && c.id == id
  }

  ghost predicate DistinctIds(courses: seq<Course>)
  {
    forall i, j :: 0 <= i < j < |courses| ==> courses[i].id != courses[j].id
  }

  /** The index of the first course with that id: where `find` stops. */
  function FirstIndex(courses: seq<Course>, id: string): (r: Option<nat>)
    ensures r.None? <==> !HasId(courses, id)
    ensures r.Some? ==> r.value < |courses| && courses[r.value].id == id
    ensures r.Some? ==> forall j :: 0 <= j < r.value ==> courses[j].id != id
  {
    if courses == [] then None
    else if courses[0].id == id then Some(0)
    else
      match FirstIndex(courses[1..], id)
      case None => None
      case Some(k) => Some(k + 1)
  }

  /** `courses.find(c => c.id === id)`: the first course with that id. */
  function Find(courses: seq<Course>, id: string): (r: Option<Course>)
    ensures r.None? <==> !HasId(courses, id)
    ensures r.Some? ==> r.value.id == id && r.value in courses
    ensures r.Some? ==> r.value == courses[FirstIndex(courses, id).value]
  {
    match FirstIndex(courses, id)
    case None => None
    case Some(k) => Some(courses[k])
  }

  /** `courses.filter(c => c.id !== id)`: every course without that id, in order. */
  function Without(courses: seq<Course>, id: string): (r: seq<Course>)
    ensures forall c :: c in r <==> c in courses && c.id != id
    ensures HasId(courses, id) <==> |r| < |courses|
    ensures !HasId(courses, id) ==> r == courses
  {
    if courses == [] then []
    else
      var rest := Without(courses[1..], id);
      assert courses == [courses[0]] + courses[1..];
      if courses[0].id == id then rest else [courses[0]] + rest
  }

  /** Filtering a concatenation filters each part: the relative order is kept. */
  lemma {:induction false} WithoutConcat(a: seq<Course>, b: seq<Course>, id: string)
    ensures Without(a + b, id) == Without(a, id) + Without(b, id)
  {
    if a != [] {
      assert (a + b)[1..] == a[1..] + b;
      WithoutConcat(a[1..], b, id);
    } else {
      assert a + b == b;
    }
  }

  /** In a list with distinct ids, the id at index k occurs nowhere else. */
  lemma IdOnlyAt(courses: seq<Course>, k: nat)
    requires DistinctIds(courses) && k < |courses|
    ensures !HasId(courses[..k], courses[k].id) && !HasId(courses[k + 1..], courses[k].id)
  {
    forall c | c in courses[..k] ensures c.id != courses[k].id {
      var j :| 0 <= j < k && courses[..k][j] == c;
    }
    forall c | c in courses[k + 1..] ensures c.id != courses[k].id {
      var j :| 0 <= j < |courses| - k - 1 && courses[k + 1..][j] == c;
      assert c == courses[k + 1 + j];
    }
  }

  /** Filtering out the id of a single course leaves nothing. */
  lemma WithoutOwnId(c: Course)
    ensures Without([c], c.id) == []
  {
    assert [c][1..] == [];
  }

  /** Filtering a course's own id out of that course followed by a list without the id leaves the list. */
  lemma WithoutHead(c: Course, after: seq<Course>)
    requires !HasId(after, c.id)
    ensures Without([c] + after, c.id) == after
  {
    assert ([c] + after)[1..] == after;
  }

  /** In a list with distinct ids, removing the id at index k removes exactly that entry. */
  lemma WithoutAt(courses: seq<Course>, k: nat)
    requires DistinctIds(courses) && k < |courses|
    ensures Without(courses, courses[k].id) == courses[..k] + courses[k + 1..]
  {
    var id := courses[k].id;
    var before, rest, after := courses[..k], courses[k..], courses[k + 1..];
    assert courses == before + rest;
    assert rest == [courses[k]] + after;
    IdOnlyAt(courses, k);
    WithoutConcat(before, rest, id);
    WithoutHead(courses[k], after);
    calc {
      Without(courses, id);
      Without(before, id) + Without(rest, id);
      { assert !HasId(before, id); }
      before + after;
    }
  }

  /** Filtering keeps distinct ids distinct. */
  lemma {:induction false} WithoutKeepsIdsDistinct(courses: seq<Course>, id: string)
    requires DistinctIds(courses)
    ensures DistinctIds(Without(courses, id))
  {
    if courses != [] {
      var rest := courses[1..];
      WithoutKeepsIdsDistinct(rest, id);
      if courses[0].id != id {
        var r := Without(courses, id);
        assert r == [courses[0]] + Without(rest, id);
        forall j | 0 < j < |r| ensures r[0].id != r[j].id {
          assert r[j] in rest;
        }
      }
    }
  }

  /** In a list with distinct ids, find returns the entry with that id. */
  lemma FindAt(courses: seq<Course>, k: nat)
    requires DistinctIds(courses) && k < |courses|
    ensures Find(courses, courses[k].id) == Some(courses[k])
  {
  }

  // ---------------------------------------------------------------------------
  // Toggling a bookmark

  /**
   * The new bookmark list `toggleBookmark` computes, or None when the id is not
   * in the catalogue (no change and nothing saved).
   */
  function Toggled(catalogue: seq<Course>, bookmarks: seq<Course>, id: string): (r: Option<seq<Course>>)
    ensures r.None? <==> !HasId(catalogue, id)
    ensures r.Some? ==> (HasId(r.value, id) <==> !HasId(bookmarks, id))
    ensures r.Some? && !HasId(bookmarks, id) ==>
      && |r.value| == |bookmarks| + 1
      && r.value[..|bookmarks|] == bookmarks
      && r.value[|bookmarks|] in catalogue && r.value[|bookmarks|].id == id
    ensures r.Some? && HasId(bookmarks, id) ==>
      && |r.value| < |bookmarks|
      && forall c :: c in r.value <==> c in bookmarks && c.id != id
    ensures r.Some? && HasId(bookmarks, id) ==> r.value == Without(bookmarks, id)
    ensures r.Some? && !HasId(bookmarks, id) ==> r.value == bookmarks + [Find(catalogue, id).value]
  {
    match Find(catalogue, id)
    case None => None
    case Some(course) =>
      if HasId(bookmarks, id) then Some(Without(bookmarks, id))
      else
        assert (bookmarks + [course])[..|bookmarks|] == bookmarks;
        Some(bookmarks + [course])
  }

  /** Toggling keeps the ids of the bookmark list pairwise distinct. */
  lemma ToggleKeepsIdsDistinct(catalogue: seq<Course>, bookmarks: seq<Course>, id: string)
    requires DistinctIds(bookmarks)
    ensures Toggled(catalogue, bookmarks, id).Some? ==> DistinctIds(Toggled(catalogue, bookmarks, id).value)
  {
    if HasId(bookmarks, id) {
      WithoutKeepsIdsDistinct(bookmarks, id);
    }
  }

  /** Bookmarking and then unbookmarking a catalogue course restores the list. */
  lemma ToggleTwiceRestores(catalogue: seq<Course>, bookmarks: seq<Course>, id: string)
    requires HasId(catalogue, id) && !HasId(bookmarks, id)
    ensures Toggled(catalogue, Toggled(catalogue, bookmarks, id).value, id) == Some(bookmarks)
  {
    var course := Find(catalogue, id).value;
    var once := bookmarks + [course];
    assert Toggled(catalogue, bookmarks, id) == Some(once);
    assert course in once;
    WithoutConcat(bookmarks, [course], id);
    WithoutOwnId(course);
    assert Without(once, id) == bookmarks;
  }

  /** Unbookmarking and then bookmarking moves the course to the end, as its current catalogue snapshot. */
  lemma ToggleTwiceReappends(catalogue: seq<Course>, bookmarks: seq<Course>, id: string)
    requires HasId(catalogue, id) && HasId(bookmarks, id)
    ensures Toggled(catalogue, Toggled(catalogue, bookmarks, id).value, id)
         == Some(Without(bookmarks, id) + [Find(catalogue, id).value])
  {
  }

  // ---------------------------------------------------------------------------
  // Building the catalogue

  /** The entries of a feed; a `data` field that is not an array counts as none. */
  function Items<T>(feed: Feed<T>): (r: seq<T>)
    ensures feed.data.NotArray? ==> r == []
    ensures feed.data.Array? ==> r == feed.data.items
  {
    match feed.data
    case Array(items) => items
    case NotArray => []
  }

  function UserCourse(user: RandomUser, index: nat, draw: Draw): (c: Course)
    ensures c.id == "user-" + Decimal(index)
    ensures c.title == "Course by " + user.name && c.instructor == user.name
    ensures c.description == "Learn from " + user.name + ", a professional instructor."
    ensures 10 <= c.price <= 109
  {
    Course("user-" + Decimal(index), "Course by " + user.name,
           "Learn from " + user.name + ", a professional instructor.", user.name, draw + 10)
  }

  function ProductCourse(product: Product, index: nat): (c: Course)
    ensures c.id == "product-" + Decimal(index) && c.instructor == "Expert Instructor"
    ensures c.title == product.title && c.description == product.description && c.price == product.price
  {
    Course("product-" + Decimal(index), product.title, product.description, "Expert Instructor", product.price)
  }

  /**
   * `courseData`: the user-derived courses, then the product-derived ones, each
   * numbered by its index within its own feed; `draws(i)` is the random draw
   * for the i-th user.
   */
  function BuildCourses(users: seq<RandomUser>, products: seq<Product>, draws: nat -> Draw): (r: seq<Course>)
    ensures |r| == |users| + |products|
    ensures forall i :: 0 <= i < |users| ==> r[i] == UserCourse(users[i], i, draws(i))
    ensures forall i :: 0 <= i < |products| ==> r[|users| + i] == ProductCourse(products[i], i)
  {
    seq(|users|, i requires 0 <= i < |users| => UserCourse(users[i], i, draws(i)))
    + seq(|products|, i requires 0 <= i < |products| => ProductCourse(products[i], i))
  }

  /** Different indices under the same prefix give different ids. */
  lemma PrefixedIndexInjective(prefix: string, a: nat, b: nat)
    ensures prefix + Decimal(a) == prefix + Decimal(b) ==> a == b
  {
    if prefix + Decimal(a) == prefix + Decimal(b) {
      assert (prefix + Decimal(a))[|prefix|..] == Decimal(a);
      assert (prefix + Decimal(b))[|prefix|..] == Decimal(b);
      DecimalInjective(a, b);
    }
  }

  /** Every id in one load is different: ids are synthesized per feed, and the two prefixes differ. */
  lemma CatalogueIdsDistinct(users: seq<RandomUser>, products: seq<Product>, draws: nat -> Draw)
    ensures DistinctIds(BuildCourses(users, products, draws))
  {
    var r := BuildCourses(users, products, draws);
    var n := |users|;
    forall i, j | 0 <= i < j < |r| ensures r[i].id != r[j].id {
      if j < n {
        PrefixedIndexInjective("user-", i, j);
      } else if i >= n {
        PrefixedIndexInjective("product-", i - n, j - n);
      } else {
        assert r[i].id[0] == 'u' && r[j].id[0] == 'p';
      }
    }
  }

  /** Whether a course came from the users feed, judged by its id alone. */
  predicate FromUsersFeed(c: Course)
  {
    |c.id| >= 5 && c.id[..5] == "user-"
  }

  /** In a built catalogue, exactly the first |users| entries are user-derived; all others come after them. */
  lemma UsersBeforeProducts(users: seq<RandomUser>, products: seq<Product>, draws: nat -> Draw)
    ensures var r := BuildCourses(users, products, draws);
      forall i :: 0 <= i < |r| ==> (FromUsersFeed(r[i]) <==> i < |users|)
  {
    var r := BuildCourses(users, products, draws);
    forall i | 0 <= i < |r| ensures FromUsersFeed(r[i]) <==> i < |users| {
      if i < |users| {
        assert r[i].id[..5] == "user-";
      } else {
        assert r[i].id[0] == 'p';
        assert |r[i].id| >= 5 ==> r[i].id[..5][0] == 'p';
      }
    }
  }

  /** Looking up `user-i` in a built catalogue finds the course made from the i-th user. */
  lemma FindUserCourse(users: seq<RandomUser>, products: seq<Product>, draws: nat -> Draw, i: nat)
    requires i < |users|
    ensures Find(BuildCourses(users, products, draws), "user-" + Decimal(i)) == Some(UserCourse(users[i], i, draws(i)))
  {
    var r := BuildCourses(users, products, draws);
    CatalogueIdsDistinct(users, products, draws);
    assert r[i] == UserCourse(users[i], i, draws(i));
    FindAt(r, i);
  }

  /** Looking up `product-i` in a built catalogue finds the course made from the i-th product. */
  lemma FindProductCourse(users: seq<RandomUser>, products: seq<Product>, draws: nat -> Draw, i: nat)
    requires i < |products|
    ensures Find(BuildCourses(users, products, draws), "product-" + Decimal(i)) == Some(ProductCourse(products[i], i))
  {
    var r := BuildCourses(users, products, draws);
    CatalogueIdsDistinct(users, products, draws);
    assert r[|users| + i] == ProductCourse(products[i], i);
    FindAt(r, |users| + i);
  }

  /** The catalogue `loadCourses` installs, or the error that leaves the previous one in place. */
  function FetchCatalogue(users: Server<Feed<RandomUser>>, products: Server<Feed<Product>>, draws: nat -> Draw)
    : (r: Result<seq<Course>, ApiError>)
    ensures r.Success? <==> FetchRandomUsers(users).Success? && FetchRandomProducts(products).Success?
    ensures r.Success? ==>
      && |r.value| == |Items(FetchRandomUsers(users).value)| + |Items(FetchRandomProducts(products).value)|
      && DistinctIds(r.value)
    ensures r.Success? ==>
      r.value == BuildCourses(Items(FetchRandomUsers(users).value), Items(FetchRandomProducts(products).value), draws)
  {
    match (FetchRandomUsers(users), FetchRandomProducts(products))
    case (Success(u), Success(p)) =>
      CatalogueIdsDistinct(Items(u), Items(p), draws);
      Success(BuildCourses(Items(u), Items(p), draws))
    case (Failure(e), _) => Failure(e)
    case (_, Failure(e)) => Failure(e)
  }

  // ---------------------------------------------------------------------------
  // The provider

  const BookmarksKey := "bookmarkedCourses"

  /** What the general store holds under the bookmarks key: a serialized list, or text that does not parse. */
  datatype Snapshot = Encoded(courses: seq<Course>) | Unparsable

  class CoursesProvider {
    var courses: seq<Course>
    var bookmarkedCourses: seq<Course>
    var isLoading: bool
    /** The general store, seen through its bookmarks entry. */
    const storage: Store<Snapshot>

    /** Every catalogue the provider holds comes from one load, so its ids are distinct. */
    ghost predicate Valid()
      reads this
    {
      DistinctIds(courses)
    }

    constructor (storage: Store<Snapshot>)
      ensures Valid() && this.storage == storage
      ensures courses == [] && bookmarkedCourses == [] && isLoading
    {
      courses := [];
      bookmarkedCourses := [];
      isLoading := true;
      this.storage := storage;
    }

    /** `loadCourses`: installs a fresh catalogue if both feeds answered; loading ends in every case. */
    method LoadCourses(users: Server<Feed<RandomUser>>, products: Server<Feed<Product>>, draws: nat -> Draw)
      returns (ghost loadingWhileFetching: bool)
      requires Valid()
      modifies this`courses, this`isLoading
      ensures Valid() && !isLoading
      ensures loadingWhileFetching == old(isLoading)
      ensures courses == match FetchCatalogue(users, products, draws)
                         case Success(catalogue) => catalogue
                         case Failure(_) => old(courses)
    {
      loadingWhileFetching := isLoading;
      var fetched := FetchCatalogue(users, products, draws);
      if fetched.Success? {
        courses := fetched.value;
      }
      isLoading := false;
    }

    /** `refreshCourses`: shows loading, then loads. */
    method RefreshCourses(users: Server<Feed<RandomUser>>, products: Server<Feed<Product>>, draws: nat -> Draw)
      returns (ghost loadingWhileFetching: bool)
      requires Valid()
      modifies this`courses, this`isLoading
      ensures Valid() && !isLoading && loadingWhileFetching
      ensures courses == match FetchCatalogue(users, products, draws)
                         case Success(catalogue) => catalogue
                         case Failure(_) => old(courses)
    {
      isLoading := true;
      loadingWhileFetching := LoadCourses(users, products, draws);
    }

    /** `loadBookmarks`: adopts the stored list; a read failure, no entry or bad text changes nothing. */
    method LoadBookmarks(available: bool)
      modifies this`bookmarkedCourses
      ensures bookmarkedCourses ==
        if available && BookmarksKey in storage.entries && storage.entries[BookmarksKey].Encoded?
        then storage.entries[BookmarksKey].courses
        else old(bookmarkedCourses)
    {
      var stored := storage.GetItem(BookmarksKey, available);
      if stored.Success? && stored.value.Some? && stored.value.value.Encoded? {
        bookmarkedCourses := stored.value.value.courses;
      }
    }

    /** `saveBookmarks`: writes the whole list; a failure is swallowed. */
    method SaveBookmarks(bookmarks: seq<Course>, available: bool)
      modifies storage
      ensures storage.entries == Written(old(storage.entries), BookmarksKey, Encoded(bookmarks), available)
    {
      var _ := storage.SetItem(BookmarksKey, Encoded(bookmarks), available);
    }

    /**
     * `toggleBookmark`: an id outside the catalogue changes nothing and saves
     * nothing; otherwise the toggled list replaces the old one in memory and is
     * handed to `saveBookmarks`, whose failure leaves memory ahead of storage.
     */
    method ToggleBookmark(courseId: string, saveAvailable: bool)
      requires Valid()
      modifies this`bookmarkedCourses, storage
      ensures Valid()
      ensures !HasId(courses, courseId) ==>
        bookmarkedCourses == old(bookmarkedCourses) && storage.entries == old(storage.entries)
      ensures HasId(courses, courseId) ==>
        && bookmarkedCourses == Toggled(courses, old(bookmarkedCourses), courseId).value
        && storage.entries == Written(old(storage.entries), BookmarksKey, Encoded(bookmarkedCourses), saveAvailable)
      ensures DistinctIds(old(bookmarkedCourses)) ==> DistinctIds(bookmarkedCourses)
    {
      var toggled := Toggled(courses, bookmarkedCourses, courseId);
      if toggled.None? {
        return;
      }
      if DistinctIds(bookmarkedCourses) {
        ToggleKeepsIdsDistinct(courses, bookmarkedCourses, courseId);
      }
      bookmarkedCourses := toggled.value;
      SaveBookmarks(toggled.value, saveAvailable);
    }
  }

  /** After a toggle whose save succeeded, reloading the bookmarks gives back the in-memory list. */
  method ToggleThenReload(p: CoursesProvider, courseId: string)
    requires p.Valid()
    modifies p, p.storage
    ensures HasId(p.courses, courseId) ==>
      p.bookmarkedCourses == Toggled(p.courses, old(p.bookmarkedCourses), courseId).value
  {
    p.ToggleBookmark(courseId, true);
    ghost var inMemory := p.bookmarkedCourses;
    p.LoadBookmarks(true);
    assert HasId(p.courses, courseId) ==> p.bookmarkedCourses == inMemory;
  }
}
