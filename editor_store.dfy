/** The editor's state store: the course and lesson being edited, the files
    and tabs, the plugin panels and the last test results, with the actions
    that replace its fields. */
module EditorStore {
  import opened Wrappers
  import opened CourseChain
  import opened CourseLanguage
  import opened EditorFiles
  import opened CourseRunner

  datatype ColorMode = Light | Dark

  /** The section shown beside the editor; `Lesson` is the one a store starts
      with, and the others are carried by name. */
  datatype SectionType = LessonSection | OtherSection(name: string)

  /** `TEditorConfig`; the `onLessonComplete` callback is not modelled. */
  datatype EditorConfig = EditorConfig(topOffset: Option<int>, enableLessonsWithProgress: Option<bool>,
                                       authenticated: Option<bool>, hideAuthor: Option<bool>)

  /** `TEditorPanel` (`label` is written `labelText`): the component and its props are kept as values compared
      only for equality. */
  datatype Panel = Panel(id: string, labelText: string, component: string, props: string)

  /** An open editor tab, by the path of the file it shows. */
  datatype EditorTab = EditorTab(path: string)

  /** Rendered header markup, compared only for equality. */
  datatype HeaderContent = HeaderContent(markup: string)

  /** The properties the store is created from. */
  datatype StoreProps = StoreProps(chain: ECourseChain, language: ECourseLanguage, courseSlug: string,
                                   activeLessonSlug: string, config: EditorConfig, apiUrl: Option<string>,
                                   authenticated: Option<bool>, colorMode: Option<ColorMode>,
                                   headerContent: Option<HeaderContent>)

  /** Every field of the store. */
  datatype StoreState = StoreState(
    chain: ECourseChain, language: ECourseLanguage, courseSlug: string, activeLessonSlug: string,
    config: EditorConfig, apiUrl: Option<string>, authenticated: Option<bool>, colorMode: ColorMode,
    headerContent: Option<HeaderContent>, files: seq<EditorFile>, tabs: seq<EditorTab>, activeTab: int,
    panels: seq<Panel>, activePanel: string, sidePanels: seq<Panel>, currentSection: SectionType,
    output: string, testResults: Option<TestResponse>, fontSize: int, fullscreen: bool)

  /** The state `createEditorStore` starts from: the properties as given, the
      colour mode light unless one is given, and everything else empty. */
  function Initial(props: StoreProps): (s: StoreState)
    ensures s.chain == props.chain && s.language == props.language && s.courseSlug == props.courseSlug
    ensures s.activeLessonSlug == props.activeLessonSlug && s.config == props.config
    ensures s.colorMode == (if props.colorMode.Some? then props.colorMode.value else Light)
    ensures s.files == [] && s.tabs == [] && s.panels == [] && s.sidePanels == []
    ensures s.activeTab == 0 && s.activePanel == "" && s.output == "" && s.fontSize == 14
    ensures s.currentSection == LessonSection && s.testResults == None
  {
    StoreState(props.chain, props.language, props.courseSlug, props.activeLessonSlug, props.config,
               props.apiUrl, props.authenticated, if props.colorMode.Some? then props.colorMode.value else Light, props.headerContent,
               [], [], 0, [], "", [], LessonSection, "", None, 14, false)
  }

  // ---------------------------------------------------------------------------
  // Panels

  /** `panels.findIndex(p => p.id === id)`: the first panel with the id, or -1. */
  function FindPanelIndex(panels: seq<Panel>, id: string): (i: int)
    ensures -1 <= i < |panels|
    ensures i == -1 <==> forall j | 0 <= j < |panels| :: panels[j].id != id
    ensures i >= 0 ==> panels[i].id == id && forall j | 0 <= j < i :: panels[j].id != id
  {
    if panels == [] then -1
    else if panels[0].id == id then 0
    else
      var i := FindPanelIndex(panels[1..], id);
      if i == -1 then -1 else i + 1
  }

  /** The first panel with an id is found wherever it is. */
  lemma FindPanelIndexAt(panels: seq<Panel>, id: string, i: nat)
    requires i < |panels| && panels[i].id == id && forall j | 0 <= j < i :: panels[j].id != id
    ensures FindPanelIndex(panels, id) == i
  {
    assert panels[i].id == id;
  }

  /** The panel list after `updatePanel(panel)`. */
  function UpdatedPanels(panels: seq<Panel>, panel: Panel): seq<Panel>
  {
    var i := FindPanelIndex(panels, panel.id);
    if i == -1 then panels else panels[i := panel]
  }

  /** `updatePanel` replaces the first panel with the same id and keeps every
      other one in its place; with an unknown id it changes nothing. */
  lemma UpdatedPanelsReplaceFirst(panels: seq<Panel>, panel: Panel)
    ensures var r := UpdatedPanels(panels, panel);
            && |r| == |panels|
            && ((forall j | 0 <= j < |panels| :: panels[j].id != panel.id) ==> r == panels)
            && (forall j | 0 <= j < |panels| :: panels[j].id == panel.id && (forall k | 0 <= k < j :: panels[k].id != panel.id)
                  ==> r[j] == panel && forall k | 0 <= k < |panels| && k != j :: r[k] == panels[k])
  {
  }

  /** `updatePanel` never changes which ids the panels have, nor their order. */
  lemma UpdatedPanelsKeepIds(panels: seq<Panel>, panel: Panel)
    ensures |UpdatedPanels(panels, panel)| == |panels|
    ensures forall j | 0 <= j < |panels| :: UpdatedPanels(panels, panel)[j].id == panels[j].id
  {
  }

  /** Updating with the same panel twice is the same as once. */
  lemma UpdatedPanelsIdempotent(panels: seq<Panel>, panel: Panel)
    ensures UpdatedPanels(UpdatedPanels(panels, panel), panel) == UpdatedPanels(panels, panel)
  {
    var i := FindPanelIndex(panels, panel.id);
    if i != -1 {
      var r := panels[i := panel];
      FindPanelIndexAt(r, panel.id, i);
    }
  }

  /** A panel added to a list without its id is the one a later update with
      that id replaces. */
  lemma AddThenUpdate(panels: seq<Panel>, added: Panel, updated: Panel)
    requires added.id == updated.id && forall j | 0 <= j < |panels| :: panels[j].id != added.id
    ensures UpdatedPanels(panels + [added], updated) == panels + [updated]
  {
    FindPanelIndexAt(panels + [added], added.id, |panels|);
  }

  // ---------------------------------------------------------------------------
  // The store

  class Store {
    const props: StoreProps

    var chain: ECourseChain
    var language: ECourseLanguage
    var courseSlug: string
    var activeLessonSlug: string
    var config: EditorConfig
    var apiUrl: Option<string>
    var authenticated: Option<bool>
    var colorMode: ColorMode
    var headerContent: Option<HeaderContent>
    var files: seq<EditorFile>
    var tabs: seq<EditorTab>
    var activeTab: int
    var panels: seq<Panel>
    var activePanel: string
    var sidePanels: seq<Panel>
    var currentSection: SectionType
    var output: string
    var testResults: Option<TestResponse>
    var fontSize: int
    var fullscreen: bool

    function State(): StoreState
      reads this
    {
      StoreState(chain, language, courseSlug, activeLessonSlug, config, apiUrl, authenticated, colorMode,
                 headerContent, files, tabs, activeTab, panels, activePanel, sidePanels, currentSection,
                 output, testResults, fontSize, fullscreen)
    }

    /** `createEditorStore(props)`. */
    constructor(props: StoreProps)
      ensures this.props == props && State() == Initial(props)
    {
      this.props := props;
      chain, language, courseSlug, activeLessonSlug := props.chain, props.language, props.courseSlug, props.activeLessonSlug;
      config, apiUrl, authenticated := props.config, props.apiUrl, props.authenticated;
      colorMode := if props.colorMode.Some? then props.colorMode.value else Light;
      headerContent := props.headerContent;
      files, tabs, activeTab := [], [], 0;
      panels, activePanel, sidePanels := [], "", [];
      currentSection := LessonSection;
      output, testResults := "", None;
      fontSize, fullscreen := 14, false;
    }

    method SetAuthenticated(value: bool)
      modifies this
      ensures State() == old(State()).(authenticated := Some(value))
    {
      authenticated := Some(value);
    }

    /** The configuration becomes the one the store was created with, with only
        the progress flag set: an earlier call leaves no trace. */
    method SetEnableLessonsWithProgress(state: bool)
      modifies this
      ensures State() == old(State()).(config := props.config.(enableLessonsWithProgress := Some(state)))
    {
      config := props.config.(enableLessonsWithProgress := Some(state));
    }

    method SetOutput(value: string)
      modifies this
      ensures State() == old(State()).(output := value)
    {
      output := value;
    }

    method SetTestResults(value: TestResponse)
      modifies this
      ensures State() == old(State()).(testResults := Some(value))
    {
      testResults := Some(value);
    }

    method SetFiles(files: seq<EditorFile>)
      modifies this
      ensures State() == old(State()).(files := files)
    {
      this.files := files;
    }

    method SetTabs(tabs: seq<EditorTab>)
      modifies this
      ensures State() == old(State()).(tabs := tabs)
    {
      this.tabs := tabs;
    }

    method SetActiveTab(index: int)
      modifies this
      ensures State() == old(State()).(activeTab := index)
    {
      activeTab := index;
    }

    method SetCurrentSection(section: SectionType)
      modifies this
      ensures State() == old(State()).(currentSection := section)
    {
      currentSection := section;
    }

    method SetFontSize(size: int)
      modifies this
      ensures State() == old(State()).(fontSize := size)
    {
      fontSize := size;
    }

    method SetActiveLessonSlug(slug: string)
      modifies this
      ensures State() == old(State()).(activeLessonSlug := slug)
    {
      activeLessonSlug := slug;
    }

    method SetColorMode(mode: ColorMode)
      modifies this
      ensures State() == old(State()).(colorMode := mode)
    {
      colorMode := mode;
    }

    /** `setHeaderContent`: `undefined` clears the header. */
    method SetHeaderContent(content: Option<HeaderContent>)
      modifies this
      ensures State() == old(State()).(headerContent := content)
    {
      headerContent := content;
    }

    /** `addPanel`: the panel goes last. */
    method AddPanel(panel: Panel)
      modifies this
      ensures State() == old(State()).(panels := old(panels) + [panel])
    {
      panels := panels + [panel];
    }

    /** `updatePanel`: replaces the first panel with the panel's id; with an
        unknown id the state stays as it was. */
    method UpdatePanel(panel: Panel)
      modifies this
      ensures State() == old(State()).(panels := UpdatedPanels(old(panels), panel))
      ensures FindPanelIndex(old(panels), panel.id) == -1 ==> State() == old(State())
    {
      var index := FindPanelIndex(panels, panel.id);
      if index == -1 {
        return;
      }
      var updated := panels[index := panel];
      panels := updated;
    }

    method SetActivePanel(id: string)
      modifies this
      ensures State() == old(State()).(activePanel := id)
    {
      activePanel := id;
    }

    /** `addSidePanel`: the panel goes last among the side panels; the bottom
        panels are untouched. */
    method AddSidePanel(panel: Panel)
      modifies this
      ensures State() == old(State()).(sidePanels := old(sidePanels) + [panel])
    {
      sidePanels := sidePanels + [panel];
    }
  }
}
