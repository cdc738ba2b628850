/** The cashier look-and-feel settings
    (src/components/settings/UICustomizationPanel.tsx): the nested settings
    record, the three section handlers that each replace one key, reset and
    save, and the style values the preview derives from the settings. */
module UiCustomizationPanel {
  import opened Common

  datatype Layout = Layout(gridSize: string, showImages: bool, showPrices: bool)
  datatype Appearance = Appearance(primaryColor: string, secondaryColor: string, fontSize: string, buttonStyle: string)
  datatype Categories = Categories(visible: bool, position: string)
  datatype Settings = Settings(layout: Layout, appearance: Appearance, categories: Categories)

  /** `defaultSettings`. */
  function DefaultSettings(): Settings {
    Settings(Layout("medium", true, true),
             Appearance("#4f46e5", "#f97316", "medium", "rounded"),
             Categories(true, "top"))
  }

  /** A `handleLayoutChange(key, value)` call, one constructor per key. */
  datatype LayoutEdit = GridSize(size: string) | ShowImages(on: bool) | ShowPrices(on: bool)
  /** A `handleAppearanceChange(key, value)` call. */
  datatype AppearanceEdit = PrimaryColor(color: string) | SecondaryColor(color: string)
                          | FontSize(size: string) | ButtonStyle(style: string)
  /** A `handleCategoriesChange(key, value)` call. */
  datatype CategoriesEdit = Visible(on: bool) | Position(where: string)

  /** The new settings after a layout edit: the edited key holds the value;
      the other layout keys and the other sections are as they were. */
  function EditLayout(s: Settings, e: LayoutEdit): (r: Settings)
    ensures r.appearance == s.appearance && r.categories == s.categories
    ensures r.layout.gridSize == (if e.GridSize? then e.size else s.layout.gridSize)
    ensures r.layout.showImages == (if e.ShowImages? then e.on else s.layout.showImages)
    ensures r.layout.showPrices == (if e.ShowPrices? then e.on else s.layout.showPrices)
  {
    var l := match e
      case GridSize(v) => s.layout.(gridSize := v)
      case ShowImages(v) => s.layout.(showImages := v)
      case ShowPrices(v) => s.layout.(showPrices := v);
    s.(layout := l)
  }

  /** The new settings after an appearance edit. */
  function EditAppearance(s: Settings, e: AppearanceEdit): (r: Settings)
    ensures r.layout == s.layout && r.categories == s.categories
    ensures r.appearance.primaryColor == (if e.PrimaryColor? then e.color else s.appearance.primaryColor)
    ensures r.appearance.secondaryColor == (if e.SecondaryColor? then e.color else s.appearance.secondaryColor)
    ensures r.appearance.fontSize == (if e.FontSize? then e.size else s.appearance.fontSize)
    ensures r.appearance.buttonStyle == (if e.ButtonStyle? then e.style else s.appearance.buttonStyle)
  {
    var a := match e
      case PrimaryColor(v) => s.appearance.(primaryColor := v)
      case SecondaryColor(v) => s.appearance.(secondaryColor := v)
      case FontSize(v) => s.appearance.(fontSize := v)
      case ButtonStyle(v) => s.appearance.(buttonStyle := v);
    s.(appearance := a)
  }

  /** The new settings after a categories edit. */
  function EditCategories(s: Settings, e: CategoriesEdit): (r: Settings)
    ensures r.layout == s.layout && r.appearance == s.appearance
    ensures r.categories.visible == (if e.Visible? then e.on else s.categories.visible)
    ensures r.categories.position == (if e.Position? then e.where else s.categories.position)
  {
    var c := match e
      case Visible(v) => s.categories.(visible := v)
      case Position(v) => s.categories.(position := v);
    s.(categories := c)
  }

  /** Two edits of the same layout key: the second one wins. */
  lemma EditLayoutTwice(s: Settings, e1: LayoutEdit, e2: LayoutEdit)
    requires e1.GridSize? == e2.GridSize? && e1.ShowImages? == e2.ShowImages?
    ensures EditLayout(EditLayout(s, e1), e2) == EditLayout(s, e2)
  {
  }

  /** `borderRadius` of the product tiles and buttons. */
  function ButtonRadius(style: string): (r: string)
    ensures r == "0.375rem" <==> style == "rounded"
    ensures r == "9999px" <==> style == "pill"
    ensures r == "0" <==> style != "rounded" && style != "pill"
  {
    if style == "rounded" then "0.375rem" else if style == "pill" then "9999px" else "0"
  }

  /** `borderRadius` of the sample card, where "pill" is only 1rem. */
  function CardRadius(style: string): (r: string)
    ensures r == "0.375rem" <==> style == "rounded"
    ensures r == "1rem" <==> style == "pill"
    ensures r == "0" <==> style != "rounded" && style != "pill"
  {
    if style == "rounded" then "0.375rem" else if style == "pill" then "1rem" else "0"
  }

  /** The sample card is rounded like the buttons except in the "pill"
      style, where it is rounded less. */
  lemma CardRadiusDiffersOnlyForPill(style: string)
    ensures CardRadius(style) == ButtonRadius(style) <==> style != "pill"
  {
  }

  /** Each title size is the body size one step up, except that "large"
      has no step above it. */
  lemma TitleOneStepAboveBody()
    ensures TitleFontSize("small") == BodyFontSize("medium")
    ensures TitleFontSize("medium") == BodyFontSize("large")
  {
  }

  /** The sample card's title and body font sizes. */
  function TitleFontSize(size: string): (r: string)
    ensures r == "0.875rem" <==> size == "small"
    ensures r == "1rem" <==> size == "medium"
    ensures r == "1.25rem" <==> size != "small" && size != "medium"
  {
    if size == "small" then "0.875rem" else if size == "medium" then "1rem" else "1.25rem"
  }

  function BodyFontSize(size: string): (r: string)
    ensures r == "0.75rem" <==> size == "small"
    ensures r == "0.875rem" <==> size == "medium"
    ensures r == "1rem" <==> size != "small" && size != "medium"
  {
    if size == "small" then "0.75rem" else if size == "medium" then "0.875rem" else "1rem"
  }

  /** The flex direction of the category preview. */
  function CategoryDirection(position: string): (r: string)
    ensures r == "flex-row" <==> position == "left"
    ensures r == "flex-row-reverse" <==> position == "right"
    ensures r == "flex-col" <==> position != "left" && position != "right"
  {
    if position == "left" then "flex-row" else if position == "right" then "flex-row-reverse" else "flex-col"
  }

  /** The default settings preview rounded buttons and a category bar on top
      of the products, in a column. */
  lemma DefaultPreview()
    ensures ButtonRadius(DefaultSettings().appearance.buttonStyle) == "0.375rem"
    ensures CategoryDirection(DefaultSettings().categories.position) == "flex-col"
  {
  }

  /** The panel's state. */
  class Panel {
    var settings: Settings
    var activeTab: string

    /** The settings passed in, or the defaults. */
    constructor (initialSettings: Option<Settings>)
      ensures settings == (if initialSettings.Some? then initialSettings.value else DefaultSettings())
      ensures activeTab == "layout"
    {
      settings := if initialSettings.Some? then initialSettings.value else DefaultSettings();
      activeTab := "layout";
    }

    method HandleLayoutChange(e: LayoutEdit)
      modifies this
      ensures settings == EditLayout(old(settings), e) && activeTab == old(activeTab)
    {
      settings := EditLayout(settings, e);
    }

    method HandleAppearanceChange(e: AppearanceEdit)
      modifies this
      ensures settings == EditAppearance(old(settings), e) && activeTab == old(activeTab)
    {
      settings := EditAppearance(settings, e);
    }

    method HandleCategoriesChange(e: CategoriesEdit)
      modifies this
      ensures settings == EditCategories(old(settings), e) && activeTab == old(activeTab)
    {
      settings := EditCategories(settings, e);
    }

    /** "Reset ke Default". */
    method Reset()
      modifies this
      ensures settings == DefaultSettings() && activeTab == old(activeTab)
    {
      settings := DefaultSettings();
    }

    /** `handleSave`: the current settings go to `onSave` unchanged. */
    method HandleSave() returns (saved: Settings)
      ensures saved == settings
    {
      saved := settings;
    }
  }
}
