/**
 * Nested translation dictionaries and the dotted-path lookup over them
 * (`getFromDictionary`), with the two dictionaries the application ships.
 */
module I18n {
  import opened Wrappers
  import Text

  /** A dictionary entry: a translated string or a nested dictionary. */
  datatype Entry = Leaf(text: string) | Node(entries: map<string, Entry>)

  type Dictionary = map<string, Entry>

  /** `path` names leaf `s` below `e`: each segment is a key of the dictionary reached so far. */
  ghost predicate LeafAt(e: Entry, segs: seq<string>, s: string)
    decreases |segs|
  {
    if segs == [] then e == Leaf(s)
    else e.Node? && segs[0] in e.entries && LeafAt(e.entries[segs[0]], segs[1..], s)
  }

  /** A path names at most one leaf. */
  lemma {:induction false} LeafAtUnique(e: Entry, segs: seq<string>, s: string, t: string)
    requires LeafAt(e, segs, s) && LeafAt(e, segs, t)
    ensures s == t
    decreases |segs|
  {
    if segs != [] {
      LeafAtUnique(e.entries[segs[0]], segs[1..], s, t);
    }
  }

  /**
   * The lookup loop: from `current`, each segment first requires an object
   * (a leaf stops the walk) and then a present key (a miss stops the walk).
   * `None` is the loop's early `return path`.
   */
  function Descend(current: Entry, segs: seq<string>): Option<Entry>
    decreases |segs|
  {
    if segs == [] then Some(current)
    else match current
      case Leaf(_) => None
      case Node(m) => if segs[0] in m then Descend(m[segs[0]], segs[1..]) else None
  }

  /** Walking a concatenated path is walking its first part, then the rest. */
  lemma {:induction false} DescendAppend(e: Entry, a: seq<string>, b: seq<string>)
    ensures Descend(e, a + b) == (match Descend(e, a) case None => None case Some(x) => Descend(x, b))
    decreases |a|
  {
    if a == [] {
      assert a + b == b;
    } else if e.Node? && a[0] in e.entries {
      assert (a + b)[0] == a[0] && (a + b)[1..] == a[1..] + b;
      DescendAppend(e.entries[a[0]], a[1..], b);
    } else {
      assert (a + b)[0] == a[0];
    }
  }

  /** The walk ends at a leaf exactly when the path names that leaf. */
  lemma {:induction false} DescendFindsLeaf(e: Entry, segs: seq<string>, s: string)
    ensures Descend(e, segs) == Some(Leaf(s)) <==> LeafAt(e, segs, s)
    decreases |segs|
  {
    if segs != [] && e.Node? && segs[0] in e.entries {
      DescendFindsLeaf(e.entries[segs[0]], segs[1..], s);
    }
  }

  /**
   * `getFromDictionary(dict, path)`: the string at the dotted path, or the path
   * itself for any miss. It is total: the result is a leaf of `dict` named by
   * `path`, or `path`, and it is the leaf whenever there is one.
   */
  function GetFromDictionary(dict: Dictionary, path: string): (r: string)
    ensures (exists s :: LeafAt(Node(dict), Text.Split(path, '.'), s)) ==> LeafAt(Node(dict), Text.Split(path, '.'), r)
    ensures (forall s :: !LeafAt(Node(dict), Text.Split(path, '.'), s)) ==> r == path
  {
    var segs := Text.Split(path, '.');
    match Descend(Node(dict), segs)
    case Some(Leaf(s)) =>
      DescendFindsLeaf(Node(dict), segs, s);
      s
    case _ =>
      assert forall s :: !LeafAt(Node(dict), segs, s) by {
        forall s ensures !LeafAt(Node(dict), segs, s) { DescendFindsLeaf(Node(dict), segs, s); }
      }
      path
  }

  /** A segment missing from the dictionary reached so far gives back the path. */
  lemma MissingSegmentGivesPath(dict: Dictionary, path: string, k: nat, m: Dictionary)
    requires k < |Text.Split(path, '.')|
    requires Descend(Node(dict), Text.Split(path, '.')[..k]) == Some(Node(m))
    requires Text.Split(path, '.')[k] !in m
    ensures GetFromDictionary(dict, path) == path
  {
    var segs := Text.Split(path, '.');
    assert segs == segs[..k] + segs[k..];
    DescendAppend(Node(dict), segs[..k], segs[k..]);
    assert Descend(Node(dict), segs) == None;
  }

  /** A first segment missing from the top-level dictionary gives back the path. */
  lemma MissingFirstSegmentGivesPath(dict: Dictionary, path: string)
    requires Text.Split(path, '.')[0] !in dict
    ensures GetFromDictionary(dict, path) == path
  {
    var segs := Text.Split(path, '.');
    assert segs[..0] == [];
    MissingSegmentGivesPath(dict, path, 0, dict);
  }

  /** Reaching a string before the path is used up gives back the path. */
  lemma LeafBeforeEndGivesPath(dict: Dictionary, path: string, k: nat, s: string)
    requires k < |Text.Split(path, '.')|
    requires Descend(Node(dict), Text.Split(path, '.')[..k]) == Some(Leaf(s))
    ensures GetFromDictionary(dict, path) == path
  {
    var segs := Text.Split(path, '.');
    assert segs == segs[..k] + segs[k..];
    DescendAppend(Node(dict), segs[..k], segs[k..]);
    assert Descend(Node(dict), segs) == None;
  }

  /** A path that ends at a nested dictionary gives back the path. */
  lemma NestedAtEndGivesPath(dict: Dictionary, path: string, m: Dictionary)
    requires Descend(Node(dict), Text.Split(path, '.')) == Some(Node(m))
    ensures GetFromDictionary(dict, path) == path
  {
  }

  /** The Chinese dictionary. */
  const Zh: Dictionary := map[
    "app" := Node(map["title" := Leaf("Asset Management System"), "subtitle" := Leaf("财务管理兄系统")]),
    "nav" := Node(map["workshop" := Leaf("Assets Analysis"), "history" := Leaf("History Records")]),
    "editor" := Node(map[
      "title" := Leaf("CV 编辑器"), "tip" := Leaf("在此处编辑和保存你的CV内容。"),
      "placeholder" := Leaf("在这里开始编辑你的CV..."), "upload" := Leaf("上传CV"),
      "download" := Leaf("下载CV"), "preview" := Leaf("预览效果")]),
    "preview" := Node(map["title" := Leaf("实时预览")]),
    "library" := Node(map[
      "title" := Leaf("素材库"), "subtitle" := Leaf("选择合适的模板，快速构建专业简历"),
      "copy" := Leaf("复制"), "copied" := Leaf("已复制"), "insert" := Leaf("插入到编辑器")]),
    "sidebar" := Node(map["footer1" := Leaf("© 2024 CV工坊"), "footer2" := Leaf("让简历制作更简单")]),
    "toggle" := Node(map["zh" := Leaf("中文"), "en" := Leaf("English")]),
    "settings" := Node(map[
      "title" := Leaf("设置"), "language" := Leaf("语言"), "theme" := Leaf("主题"),
      "notifications" := Leaf("通知"), "buildLog" := Leaf("建设日志"), "profile" := Leaf("个人主页")]),
    "profile" := Node(map[
      "title" := Leaf("个人主页"), "stats" := Leaf("使用统计"), "cvCount" := Leaf("简历数"),
      "versionCount" := Leaf("版本数"), "memberSince" := Leaf("注册时间"), "practiceCount" := Leaf("练习次数")]),
    "buildLog" := Node(map["title" := Leaf("建设日志"), "version" := Leaf("版本")]),
    "cancel" := Leaf("取消"),
    "signout" := Leaf("退出登录"),
    "signout_confirm" := Leaf("你确定要退出登录吗？")]

  /** The English dictionary. */
  const En: Dictionary := map[
    "app" := Node(map["title" := Leaf("CV Studio"), "subtitle" := Leaf("Build your next career stepping stone.")]),
    "nav" := Node(map["workshop" := Leaf("Workshop"), "history" := Leaf("History Records")]),
    "tabs" := Node(map["workshop" := Leaf("Workshop"), "library" := Leaf("Library")]),
    "editor" := Node(map[
      "title" := Leaf("CV Editor"), "tip" := Leaf("Edit and save your CV here."),
      "placeholder" := Leaf("Start editing your CV here..."), "upload" := Leaf("Upload CV"),
      "download" := Leaf("Download CV"), "preview" := Leaf("Preview")]),
    "preview" := Node(map["title" := Leaf("Live Preview")]),
    "library" := Node(map[
      "title" := Leaf("Material Library"),
      "subtitle" := Leaf("Pick templates and snippets to build a professional CV quickly"),
      "copy" := Leaf("Copy"), "copied" := Leaf("Copied"), "insert" := Leaf("Insert to editor")]),
    "sidebar" := Node(map["footer1" := Leaf("© 2024 CV Studio"), "footer2" := Leaf("Make resume building easier")]),
    "coming" := Node(map[
      "versions" := Leaf("Manage and compare different CV versions, track changes"),
      "storage" := Leaf("Save and manage all your CV documents"),
      "reference" := Leaf("Browse great CV templates and writing guides"),
      "practice" := Leaf("Prepare interview questions and practice skills"),
      "waiting" := Leaf("This feature is under development...")]),
    "toggle" := Node(map["zh" := Leaf("中文"), "en" := Leaf("English")]),
    "settings" := Node(map[
      "title" := Leaf("Settings"), "language" := Leaf("Language"), "theme" := Leaf("Theme"),
      "notifications" := Leaf("Notifications"), "buildLog" := Leaf("Build Log"), "profile" := Leaf("Profile")]),
    "profile" := Node(map[
      "title" := Leaf("Profile"), "stats" := Leaf("Usage Stats"), "cvCount" := Leaf("CVs"),
      "versionCount" := Leaf("Versions"), "memberSince" := Leaf("Member since"), "practiceCount" := Leaf("Practices")]),
    "buildLog" := Node(map["title" := Leaf("Build Log"), "version" := Leaf("Version")]),
    "cancel" := Leaf("Cancel"),
    "signout" := Leaf("Sign out"),
    "signout_confirm" := Leaf("Are you sure you want to sign out?")]

  /** `zh` / `signout` is the Chinese sign-out label. */
  lemma ZhSignout()
    ensures GetFromDictionary(Zh, "signout") == "退出登录"
  {
    Text.SplitNoSeparator("signout", '.');
    DescendFindsLeaf(Node(Zh), ["signout"], "退出登录");
  }

  /** The segments of `coming.waiting`. */
  lemma ComingWaitingSegments(coming: string, waiting: string, path: string)
    requires coming == "coming" && waiting == "waiting" && path == coming + ['.'] + waiting
    ensures Text.Split(path, '.') == [coming, waiting]
  {
    assert '.' !in coming && '.' !in waiting;
    Text.TwoPieces(coming, waiting, '.');
  }

  /** `coming.waiting` is translated in English. */
  lemma ComingWaitingEn()
    ensures GetFromDictionary(En, "coming.waiting") == "This feature is under development..."
  {
    ComingWaitingEnAt("coming.waiting");
  }

  lemma ComingWaitingEnAt(path: string)
    requires path == "coming.waiting"
    ensures GetFromDictionary(En, path) == "This feature is under development..."
  {
    var segs := ["coming", "waiting"];
    assert Text.Split(path, '.') == segs by {
      ComingWaitingSegments("coming", "waiting", path);
    }
    var text := "This feature is under development...";
    assert LeafAt(Node(En), segs, text) by {
      var coming := En["coming"];
      assert coming.Node? && "waiting" in coming.entries && coming.entries["waiting"] == Leaf(text);
      assert segs[1..] == ["waiting"] && ["waiting"][1..] == [];
      assert LeafAt(coming, ["waiting"], text);
    }
    LeafAtUnique(Node(En), segs, text, GetFromDictionary(En, path));
  }

  /** The Chinese dictionary has no `coming` entry, so the path comes back. */
  lemma ComingWaitingZh()
    ensures GetFromDictionary(Zh, "coming.waiting") == "coming.waiting"
  {
    ComingWaitingZhAt("coming.waiting");
  }

  lemma ComingWaitingZhAt(path: string)
    requires path == "coming.waiting"
    ensures GetFromDictionary(Zh, path) == path
  {
    assert Text.Split(path, '.')[0] == "coming" by {
      ComingWaitingSegments("coming", "waiting", path);
    }
    assert "coming" !in Zh.Keys by {
    }
    MissingFirstSegmentGivesPath(Zh, path);
  }
}
