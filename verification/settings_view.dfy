/** The default-settings message: three select menus (dimensions, batch
    count, batch size), each marking the option that matches the current
    default. */
module SettingsView {
  import opened Optional
  import opened Strconv
  import opened Entities
  import opened Discord
  import opened Components

  /** `settingsMessageComponents`. */
  function SettingsMessageComponents(settings: DefaultSettings): (menus: seq<SelectMenu>)
    ensures |menus| == 3
    ensures menus[0].customID == DimensionMenuID
    ensures menus[1].customID == BatchCountMenuID
    ensures menus[2].customID == BatchSizeMenuID
    ensures forall m :: 0 <= m < 3 ==> |menus[m].options| == 3 && menus[m].minValues == 1 && menus[m].maxValues == 1
  {
    [ SelectMenu(DimensionMenuID, 1, 1, [
        MenuOption("Size: 512x512", "512_512", settings.width == 512 && settings.height == 512),
        MenuOption("Size: 768x768", "768_768", settings.width == 768 && settings.height == 768),
        MenuOption("Size: 1024x1024", "1024_1024", settings.width == 1024 && settings.height == 1024)]),
      SelectMenu(BatchCountMenuID, 1, 1, [
        MenuOption("Batch count: 1", "1", settings.batchCount == 1),
        MenuOption("Batch count: 2", "2", settings.batchCount == 2),
        MenuOption("Batch count: 4", "4", settings.batchCount == 4)]),
      SelectMenu(BatchSizeMenuID, 1, 1, [
        MenuOption("Batch size: 1", "1", settings.batchSize == 1),
        MenuOption("Batch size: 2", "2", settings.batchSize == 2),
        MenuOption("Batch size: 4", "4", settings.batchSize == 4)])
    ]
  }

  /** Whether choosing `value` in menu `id` asks for the current setting on
      that menu's axis: both dimensions, the batch count, or the batch size. */
  predicate Selects(id: string, value: string, settings: DefaultSettings) {
    match Decode(Component(id, [value]))
    case SetDimensions(w, h) => w == settings.width && h == settings.height
    case SetBatch(count, size) =>
      if id == BatchCountMenuID then count == settings.batchCount else size == settings.batchSize
    case _ => false
  }

  /** What the handler makes of each offered value. */
  lemma OfferedValuesDecode()
    ensures Decode(Component(DimensionMenuID, ["512_512"])) == SetDimensions(512, 512)
    ensures Decode(Component(DimensionMenuID, ["768_768"])) == SetDimensions(768, 768)
    ensures Decode(Component(DimensionMenuID, ["1024_1024"])) == SetDimensions(1024, 1024)
    ensures Decode(Component(BatchCountMenuID, ["1"])) == SetBatch(1, 4)
    ensures Decode(Component(BatchCountMenuID, ["2"])) == SetBatch(2, 2)
    ensures Decode(Component(BatchCountMenuID, ["4"])) == SetBatch(4, 1)
    ensures Decode(Component(BatchSizeMenuID, ["1"])) == SetBatch(4, 1)
    ensures Decode(Component(BatchSizeMenuID, ["2"])) == SetBatch(2, 2)
    ensures Decode(Component(BatchSizeMenuID, ["4"])) == SetBatch(1, 4)
  {
    assert Itoa(1) == "1" && Itoa(2) == "2" && Itoa(4) == "4";
    assert Itoa(512) == "512" && Itoa(768) == "768" && Itoa(1024) == "1024";
    assert "512_512" == Itoa(512) + [DimensionSeparator] + Itoa(512);
    assert "768_768" == Itoa(768) + [DimensionSeparator] + Itoa(768);
    assert "1024_1024" == Itoa(1024) + [DimensionSeparator] + Itoa(1024);
    DecodeEncode(SetDimensions(512, 512));
    DecodeEncode(SetDimensions(768, 768));
    DecodeEncode(SetDimensions(1024, 1024));
    BatchMenus(1, 4, "", []);
    BatchMenus(2, 2, "", []);
    BatchMenus(4, 1, "", []);
    assert ["1"] + [] == ["1"] && ["2"] + [] == ["2"] && ["4"] + [] == ["4"];
  }

  /** An option is marked default exactly when choosing it would ask for
      the current setting again. */
  lemma DefaultMarksCurrent(settings: DefaultSettings)
    ensures var menus := SettingsMessageComponents(settings);
            forall m, k :: 0 <= m < 3 && 0 <= k < 3 ==>
              (menus[m].options[k].isDefault <==> Selects(menus[m].customID, menus[m].options[k].value, settings))
  {
    var menus := SettingsMessageComponents(settings);
    forall m, k | 0 <= m < 3 && 0 <= k < 3
      ensures menus[m].options[k].isDefault <==> Selects(menus[m].customID, menus[m].options[k].value, settings)
    {
      OptionSelects(settings, m, k);
    }
  }

  /** One option of one menu: its mark and what choosing it asks for. */
  lemma OptionSelects(settings: DefaultSettings, m: int, k: int)
    requires 0 <= m < 3 && 0 <= k < 3
    ensures var menu := SettingsMessageComponents(settings)[m];
            menu.options[k].isDefault <==> Selects(menu.customID, menu.options[k].value, settings)
  {
    OfferedValuesDecode();
    // One empty branch per option, so that each is proved on its own.
    if m == 0 {
      if k == 0 {} else if k == 1 {} else {}
    } else if m == 1 {
      if k == 0 {} else if k == 1 {} else {}
    } else {
      if k == 0 {} else if k == 1 {} else {}
    }
  }

  /** Hence at most one option per menu is marked default. */
  lemma AtMostOneDefault(settings: DefaultSettings)
    ensures var menus := SettingsMessageComponents(settings);
            forall m, j, k | 0 <= m < 3 && 0 <= j < 3 && 0 <= k < 3 ::
              menus[m].options[j].isDefault ==> (menus[m].options[k].isDefault ==> j == k)
  {
  }

  /** Every offered option is one the handler acts on: it asks for a square
      size or a batch pair whose product is four. */
  lemma OfferedOptionsAccepted(settings: DefaultSettings)
    ensures var menus := SettingsMessageComponents(settings);
            forall m, k :: 0 <= m < 3 && 0 <= k < 3 ==>
              var a := Decode(Component(menus[m].customID, [menus[m].options[k].value]));
              Encodable(a) &&
              (a.SetDimensions? ==> a.width == a.height) &&
              (a.SetBatch? ==> a.count * a.size == 4)
  {
    var menus := SettingsMessageComponents(settings);
    forall m, k | 0 <= m < 3 && 0 <= k < 3
      ensures var a := Decode(Component(menus[m].customID, [menus[m].options[k].value]));
              Encodable(a) && (a.SetDimensions? ==> a.width == a.height) && (a.SetBatch? ==> a.count * a.size == 4)
    {
      OfferedValuesDecode();
      // One empty branch per option, so that each is proved on its own.
      if m == 0 {
        if k == 0 {} else if k == 1 {} else {}
      } else if m == 1 {
        if k == 0 {} else if k == 1 {} else {}
      } else {
        if k == 0 {} else if k == 1 {} else {}
      }
    }
  }

  /** Choosing the marked option requests the current settings again; for
      the dimension menu this holds as written too, because every offered
      size is square. */
  lemma ChoosingDefaultKeepsSettings(settings: DefaultSettings, m: int, k: int)
    requires 0 <= m < 3 && 0 <= k < 3
    requires SettingsMessageComponents(settings)[m].options[k].isDefault
    requires PairedBatch(settings.batchCount) == Some(settings.batchSize)
    ensures var menu := SettingsMessageComponents(settings)[m];
            var a := Decode(Component(menu.customID, [menu.options[k].value]));
            && SettingsUpdateAsWritten(a) == SettingsUpdateOf(a)
            && (m == 0 ==> SettingsUpdateOf(a) == UpdateDimensions(settings.width, settings.height))
            && (m != 0 ==> SettingsUpdateOf(a) == UpdateBatch(settings.batchCount, settings.batchSize))
  {
    OfferedValuesDecode();
    // One empty branch per option, so that each is proved on its own.
    if m == 0 {
      if k == 0 {} else if k == 1 {} else {}
    } else if m == 1 {
      if k == 0 {} else if k == 1 {} else {}
    } else {
      if k == 0 {} else if k == 1 {} else {}
    }
  }
}
