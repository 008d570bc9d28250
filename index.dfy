/**
 The main page: the five-section selector, the notification panel toggle, the
 logged-in flag that gates the page, the grade colour scale, the counts shown
 on the home view, and the doubled grade list of the diary view. The fixture
 records are arbitrary input sequences that the page only reads.
 */
module Index {
  import opened Options

  datatype Section = Home | Diary | Schedule | Messages | Profile

  /** The view `renderContent` produces; the markup itself is not modelled. */
  datatype View = HomeView | DiaryView | ScheduleView | MessagesView | ProfileView

  /** What the page shows: the landing card while logged out, else a section view. */
  datatype Screen = Landing | Main(view: View, notificationsShown: bool)

  datatype Color = Green | Blue | Yellow | Red

  datatype HomeworkStatus = Pending | Completed
  datatype NotificationKind = GradeNotice | HomeworkNotice | EventNotice

  datatype Grade = Grade(subject: string, grade: int, date: string, teacher: string, comment: Option<string>)
  datatype Homework = Homework(subject: string, task: string, deadline: string, status: HomeworkStatus)
  datatype Notification = Notification(id: int, kind: NotificationKind, title: string, description: string,
                                       time: string, isNew: bool)
  datatype ScheduleEntry = ScheduleEntry(time: string, subject: string, teacher: string, room: string)
  datatype Message = Message(id: int, sender: string, subject: string, preview: string, time: string, isRead: bool)

  /** `getGradeColor`: 5 is green, 4 blue, 3 yellow, anything else red. */
  function GradeColor(grade: int): (c: Color)
    ensures c == Green <==> grade == 5
    ensures c == Blue <==> grade == 4
    ensures c == Yellow <==> grade == 3
    ensures c == Red <==> grade != 3 && grade != 4 && grade != 5
  {
    if grade == 5 then Green
    else if grade == 4 then Blue
    else if grade == 3 then Yellow
    else Red
  }

  /** `renderContent`: each section renders its own view. The switch's default
      branch cannot be reached, as every value of `Section` has its own case. */
  function RenderContent(section: Section): View
  {
    match section
    case Home => HomeView
    case Diary => DiaryView
    case Schedule => ScheduleView
    case Messages => MessagesView
    case Profile => ProfileView
  }

  /** Different sections render different views, and every view is reached. */
  lemma RenderContentBijective(a: Section, b: Section, v: View)
    ensures RenderContent(a) == RenderContent(b) ==> a == b
    ensures exists s :: RenderContent(s) == v
  {
    match v
    case HomeView => assert RenderContent(Home) == v;
    case DiaryView => assert RenderContent(Diary) == v;
    case ScheduleView => assert RenderContent(Schedule) == v;
    case MessagesView => assert RenderContent(Messages) == v;
    case ProfileView => assert RenderContent(Profile) == v;
  }

  /** `Array.prototype.filter`: the elements satisfying `p`, in order. */
  function Filter<T>(s: seq<T>, p: T -> bool): (r: seq<T>)
    ensures |r| <= |s|
    ensures forall i | 0 <= i < |r| :: r[i] in s && p(r[i])
    ensures forall i | 0 <= i < |s| && p(s[i]) :: s[i] in r
    ensures |r| == |s| <==> forall i | 0 <= i < |s| :: p(s[i])
    ensures |r| == 0 <==> forall i | 0 <= i < |s| :: !p(s[i])
  {
    if s == [] then []
    else
      var rest := Filter(s[1..], p);
      assert forall i | 1 <= i < |s| :: s[i] == s[1..][i - 1];
      if p(s[0]) then [s[0]] + rest else rest
  }

  /** Filtering distributes over concatenation, so the counts below add up
      over any split of the list. */
  lemma {:induction false} FilterAppend<T>(a: seq<T>, b: seq<T>, p: T -> bool)
    ensures Filter(a + b, p) == Filter(a, p) + Filter(b, p)
  {
    if a == [] {
      assert a + b == b;
    } else {
      assert (a + b)[1..] == a[1..] + b;
      FilterAppend(a[1..], b, p);
    }
  }

  /** Filtering keeps every qualifying element as often as it occurs and drops
      every other one. */
  lemma {:induction false} FilterMultiset<T>(s: seq<T>, p: T -> bool)
    ensures forall x :: multiset(Filter(s, p))[x] == if p(x) then multiset(s)[x] else 0
  {
    if s != [] {
      assert s == [s[0]] + s[1..];
      FilterMultiset(s[1..], p);
    }
  }

  /** The home view's count of homework not yet done. */
  function PendingCount(homework: seq<Homework>): nat
  {
    |Filter(homework, (h: Homework) => h.status == Pending)|
  }

  /** The home view's count of unread messages. */
  function UnreadCount(messages: seq<Message>): nat
  {
    |Filter(messages, (m: Message) => !m.isRead)|
  }

  /** Whether the bell shows its dot: some notification is new. */
  predicate BellDot(notifications: seq<Notification>)
  {
    |Filter(notifications, (n: Notification) => n.isNew)| > 0
  }

  /** The pending count is at most the list length; it is zero exactly when no
      item is pending and equals the length exactly when every item is. */
  lemma PendingCountBounds(homework: seq<Homework>)
    ensures PendingCount(homework) <= |homework|
    ensures PendingCount(homework) == 0 <==> forall i | 0 <= i < |homework| :: homework[i].status != Pending
    ensures PendingCount(homework) == |homework| <==> forall i | 0 <= i < |homework| :: homework[i].status == Pending
  {
  }

  /** The unread count is zero exactly when every message has been read. */
  lemma UnreadCountBounds(messages: seq<Message>)
    ensures UnreadCount(messages) <= |messages|
    ensures UnreadCount(messages) == 0 <==> forall i | 0 <= i < |messages| :: messages[i].isRead
  {
  }

  /** One more unread message adds one to the count; a read one adds nothing. */
  lemma {:induction false} UnreadCountAppend(messages: seq<Message>, m: Message)
    ensures UnreadCount(messages + [m]) == UnreadCount(messages) + (if m.isRead then 0 else 1)
  {
    FilterAppend(messages, [m], (x: Message) => !x.isRead);
  }

  /** One more pending item adds one to the count; a completed one adds nothing. */
  lemma {:induction false} PendingCountAppend(homework: seq<Homework>, h: Homework)
    ensures PendingCount(homework + [h]) == PendingCount(homework) + (if h.status == Pending then 1 else 0)
  {
    FilterAppend(homework, [h], (x: Homework) => x.status == Pending);
  }

  /** The dot is shown exactly when at least one notification is new. */
  lemma BellDotIff(notifications: seq<Notification>)
    ensures BellDot(notifications) <==> exists i | 0 <= i < |notifications| :: notifications[i].isNew
  {
  }

  /** The diary view lists the grades twice in a row. */
  function DiaryList(grades: seq<Grade>): seq<Grade>
  {
    grades + grades
  }

  /** The doubled list has twice the length, and its entry `i` is the grade at
      `i` modulo the original length. */
  lemma DiaryListAt(grades: seq<Grade>, i: nat)
    requires i < |DiaryList(grades)|
    ensures |DiaryList(grades)| == 2 * |grades|
    ensures DiaryList(grades)[i] == grades[i % |grades|]
  {
    var n := |grades|;
    if i < n {
      assert i % n == i;
    } else {
      assert i - n < n;
      assert i % n == i - n;
    }
  }

  /** The main page's own state. The fixture lists are constants: nothing on the
      page changes them. */
  class IndexPage {
    var currentSection: Section
    var notificationsOpen: bool
    var isLoggedIn: bool
    const notifications: seq<Notification>
    const recentGrades: seq<Grade>
    const homework: seq<Homework>
    const todaySchedule: seq<ScheduleEntry>
    const messages: seq<Message>

    /** Opening the page: home section, panel closed, logged out. The flag is not
        read from the browser store. */
    constructor (notifications: seq<Notification>, recentGrades: seq<Grade>, homework: seq<Homework>,
                 todaySchedule: seq<ScheduleEntry>, messages: seq<Message>)
      ensures currentSection == Home && !notificationsOpen && !isLoggedIn
      ensures this.notifications == notifications && this.recentGrades == recentGrades
      ensures this.homework == homework && this.todaySchedule == todaySchedule && this.messages == messages
    {
      currentSection := Home;
      notificationsOpen := false;
      isLoggedIn := false;
      this.notifications := notifications;
      this.recentGrades := recentGrades;
      this.homework := homework;
      this.todaySchedule := todaySchedule;
      this.messages := messages;
    }

    /** What the page renders in its current state. */
    function Screen(): (s: Screen)
      reads this
      ensures s == Landing <==> !isLoggedIn
      ensures s.Main? ==> s.view == RenderContent(currentSection) && s.notificationsShown == notificationsOpen
    {
      if !isLoggedIn then Landing else Main(RenderContent(currentSection), notificationsOpen)
    }

    /** A navigation button: the section is overwritten whatever it was, so
        choosing the same section again changes nothing. */
    method SelectSection(section: Section)
      modifies this`currentSection
      ensures currentSection == section
    {
      currentSection := section;
    }

    /** The bell button flips the panel; the notification records are constants. */
    method ToggleNotifications()
      modifies this`notificationsOpen
      ensures notificationsOpen == !old(notificationsOpen)
    {
      notificationsOpen := !notificationsOpen;
    }

    /** The sign-out button clears the flag. No operation sets it. */
    method Logout()
      modifies this`isLoggedIn
      ensures !isLoggedIn
    {
      isLoggedIn := false;
    }
  }

  /** Choosing a section twice leaves the same state as choosing it once. */
  method SelectSectionTwice(page: IndexPage, section: Section)
    modifies page
    ensures page.currentSection == section
    ensures page.notificationsOpen == old(page.notificationsOpen) && page.isLoggedIn == old(page.isLoggedIn)
  {
    page.SelectSection(section);
    page.SelectSection(section);
  }

  /** Two presses of the bell restore the panel state. */
  method ToggleTwice(page: IndexPage)
    modifies page
    ensures page.notificationsOpen == old(page.notificationsOpen)
    ensures page.currentSection == old(page.currentSection) && page.isLoggedIn == old(page.isLoggedIn)
  {
    page.ToggleNotifications();
    page.ToggleNotifications();
  }

  /** The controls of the main page a user can operate. */
  datatype Control = Select(section: Section) | Toggle | SignOut

  /** Whatever sequence of controls the user operates on a freshly opened page,
      it keeps showing the landing card: the flag starts false and no control
      sets it. */
  method NeverLeavesLanding(fixtures: seq<Notification>, controls: seq<Control>) returns (page: IndexPage)
    ensures fresh(page) && page.Screen() == Landing
  {
    page := new IndexPage(fixtures, [], [], [], []);
    var i := 0;
    while i < |controls|
      invariant 0 <= i <= |controls|
      invariant fresh(page) && !page.isLoggedIn
    {
      match controls[i] {
        case Select(section) => page.SelectSection(section);
        case Toggle => page.ToggleNotifications();
        case SignOut => page.Logout();
      }
      i := i + 1;
    }
  }
}
