/** The fixed-shape style tree of a skin and its built-in defaults
    (internal/config/styles.go, types Style ... Charts and the new* builders). */
module Skin {
  import opened ColorResolution

  datatype Body = Body(fgColor: Color, bgColor: Color, logoColor: Color) {
    predicate Complete() { fgColor.IsSet() && bgColor.IsSet() && logoColor.IsSet() }
  }

  datatype Title = Title(fgColor: Color, bgColor: Color, highlightColor: Color,
                         counterColor: Color, filterColor: Color) {
    predicate Complete() {
      fgColor.IsSet() && bgColor.IsSet() && highlightColor.IsSet() &&
      counterColor.IsSet() && filterColor.IsSet()
    }
  }

  datatype Border = Border(fgColor: Color, focusColor: Color) {
    predicate Complete() { fgColor.IsSet() && focusColor.IsSet() }
  }

  datatype Menu = Menu(fgColor: Color, keyColor: Color, numKeyColor: Color) {
    predicate Complete() { fgColor.IsSet() && keyColor.IsSet() && numKeyColor.IsSet() }
  }

  datatype Crumb = Crumb(fgColor: Color, bgColor: Color, activeColor: Color) {
    predicate Complete() { fgColor.IsSet() && bgColor.IsSet() && activeColor.IsSet() }
  }

  /** Colours of resource states (new, modified, added, failed, ...). */
  datatype Status = Status(newColor: Color, modifyColor: Color, addColor: Color,
                           errorColor: Color, highlightColor: Color, killColor: Color,
                           completedColor: Color) {
    predicate Complete() {
      newColor.IsSet() && modifyColor.IsSet() && addColor.IsSet() && errorColor.IsSet() &&
      highlightColor.IsSet() && killColor.IsSet() && completedColor.IsSet()
    }
  }

  datatype Frame = Frame(title: Title, border: Border, menu: Menu, crumb: Crumb, status: Status) {
    predicate Complete() {
      title.Complete() && border.Complete() && menu.Complete() && crumb.Complete() && status.Complete()
    }
  }

  datatype Info = Info(sectionColor: Color, fgColor: Color) {
    predicate Complete() { sectionColor.IsSet() && fgColor.IsSet() }
  }

  datatype TableHeader = TableHeader(fgColor: Color, bgColor: Color, sorterColor: Color) {
    predicate Complete() { fgColor.IsSet() && bgColor.IsSet() && sorterColor.IsSet() }
  }

  datatype Table = Table(fgColor: Color, bgColor: Color, cursorColor: Color, markColor: Color,
                         header: TableHeader) {
    predicate Complete() {
      fgColor.IsSet() && bgColor.IsSet() && cursorColor.IsSet() && markColor.IsSet() &&
      header.Complete()
    }
  }

  /** The x-ray view: four colours and whether to draw icons. */
  datatype Xray = Xray(fgColor: Color, bgColor: Color, cursorColor: Color, graphicColor: Color,
                       showIcons: bool) {
    predicate Complete() {
      fgColor.IsSet() && bgColor.IsSet() && cursorColor.IsSet() && graphicColor.IsSet()
    }
  }

  /** Chart colours: three backgrounds, two palettes, and palettes per resource
      kind that only a loaded skin fills in. */
  datatype Charts = Charts(bgColor: Color, dialBgColor: Color, chartBgColor: Color,
                           defaultDialColors: Colors, defaultChartColors: Colors,
                           resourceColors: map<string, Colors>) {
    predicate Complete() {
      bgColor.IsSet() && dialBgColor.IsSet() && chartBgColor.IsSet() &&
      AllSet(defaultDialColors) && AllSet(defaultChartColors)
    }
  }

  datatype Yaml = Yaml(keyColor: Color, valueColor: Color, colonColor: Color) {
    predicate Complete() { keyColor.IsSet() && valueColor.IsSet() && colonColor.IsSet() }
  }

  datatype Log = Log(fgColor: Color, bgColor: Color) {
    predicate Complete() { fgColor.IsSet() && bgColor.IsSet() }
  }

  datatype Views = Views(table: Table, xray: Xray, charts: Charts, yaml: Yaml, log: Log) {
    predicate Complete() {
      table.Complete() && xray.Complete() && charts.Complete() && yaml.Complete() && log.Complete()
    }
  }

  /** The whole style tree of a skin. */
  datatype Style = Style(body: Body, frame: Frame, info: Info, views: Views) {
    /** Every colour of the tree holds a token, every default palette is a
        non-empty list of tokens (the per-resource palettes are optional). */
    predicate Complete() {
      body.Complete() && frame.Complete() && info.Complete() && views.Complete()
    }
  }

  // The default skin. Each builder yields a group with every colour set.

  function NewStyle(): (r: Style)
    ensures r.Complete()
  {
    Style(NewBody(), NewFrame(), NewInfo(), NewViews())
  }

  function NewCharts(): (r: Charts)
    ensures r.Complete()
    ensures r.resourceColors == map[]
  {
    Charts(DefaultColor, DefaultColor, DefaultColor,
           [Color("palegreen"), Color("orangered")],
           [Color("palegreen"), Color("orangered")],
           map[])
  }

  function NewViews(): (r: Views)
    ensures r.Complete()
  {
    Views(NewTable(), NewXray(), NewCharts(), NewYaml(), NewLog())
  }

  function NewFrame(): (r: Frame)
    ensures r.Complete()
  {
    Frame(NewTitle(), NewBorder(), NewMenu(), NewCrumb(), NewStatus())
  }

  function NewBody(): (r: Body)
    ensures r.Complete()
  {
    Body(Color("cadetblue"), Color("black"), Color("orange"))
  }

  function NewStatus(): (r: Status)
    ensures r.Complete()
  {
    Status(Color("lightskyblue"), Color("greenyellow"), Color("dodgerblue"), Color("orangered"),
           Color("aqua"), Color("mediumpurple"), Color("lightgray"))
  }

  function NewLog(): (r: Log)
    ensures r.Complete()
  {
    Log(Color("lightskyblue"), Color("black"))
  }

  function NewYaml(): (r: Yaml)
    ensures r.Complete()
  {
    Yaml(Color("steelblue"), Color("papayawhip"), Color("white"))
  }

  function NewTitle(): (r: Title)
    ensures r.Complete()
  {
    Title(Color("aqua"), Color("black"), Color("fuchsia"), Color("papayawhip"), Color("seagreen"))
  }

  function NewInfo(): (r: Info)
    ensures r.Complete()
  {
    Info(Color("white"), Color("orange"))
  }

  function NewXray(): (r: Xray)
    ensures r.Complete()
    ensures r.showIcons
  {
    Xray(Color("aqua"), Color("black"), Color("whitesmoke"), Color("floralwhite"), true)
  }

  function NewTable(): (r: Table)
    ensures r.Complete()
  {
    Table(Color("aqua"), Color("black"), Color("aqua"), Color("palegreen"), NewTableHeader())
  }

  function NewTableHeader(): (r: TableHeader)
    ensures r.Complete()
  {
    TableHeader(Color("white"), Color("black"), Color("aqua"))
  }

  function NewCrumb(): (r: Crumb)
    ensures r.Complete()
  {
    Crumb(Color("black"), Color("aqua"), Color("orange"))
  }

  function NewBorder(): (r: Border)
    ensures r.Complete()
  {
    Border(Color("dodgerblue"), Color("lightskyblue"))
  }

  function NewMenu(): (r: Menu)
    ensures r.Complete()
  {
    Menu(Color("white"), Color("dodgerblue"), Color("fuchsia"))
  }

  /** Some values of the default skin; the chart backgrounds are the reserved
      token for the terminal default. */
  lemma DefaultSkinValues()
    ensures NewStyle().body.fgColor == Color("cadetblue")
    ensures NewStyle().body.bgColor == Color("black")
    ensures NewStyle().frame.border.fgColor == Color("dodgerblue")
    ensures NewStyle().frame.border.focusColor == Color("lightskyblue")
    ensures NewStyle().views.xray.showIcons
    ensures NewStyle().views.charts.defaultDialColors == [Color("palegreen"), Color("orangered")]
    ensures NewStyle().views.charts.defaultChartColors == [Color("palegreen"), Color("orangered")]
    ensures NewStyle().views.charts.bgColor == DefaultColor
    ensures NewStyle().views.charts.resourceColors == map[]
  {
  }
}
