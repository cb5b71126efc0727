/**
 * The category list of the category screen, as a settings table: it holds
 * no state of its own and asks the category view model for counts, titles
 * and the selection.
 */
module CategoryEditTable {
  import opened Base
  import opened ChangeBatch
  import opened SettingsItems
  import opened CategoryTable
  import VM = CategoryViewModel

  class CategoryTableProvider {
    const viewModel: VM.CategoryViewModel

    constructor (viewModel: VM.CategoryViewModel)
      ensures this.viewModel == viewModel
    {
      this.viewModel := viewModel;
    }

    /** `numberOfSections`: the view model's. */
    function NumberOfSections(): (n: nat)
      ensures n == 1
    {
      viewModel.NumberOfSections()
    }

    /** `numberOfRowsInSection`: the view model's, which also reports it. */
    method NumberOfRowsInSection(section: int) returns (n: nat)
      modifies viewModel
      ensures n == viewModel.model.Count()
      ensures viewModel.rowCountReports == old(viewModel.rowCountReports) + [n]
      ensures viewModel.selected == old(viewModel.selected) && viewModel.didUpdateCount == old(viewModel.didUpdateCount)
      ensures viewModel.editions == old(viewModel.editions)
    {
      n := viewModel.NumberOfRowsInSection(section);
    }

    /** `find(at:)`: nil when the view model finds no title; the row is marked when its title is the view model's selection. */
    function FindAt(p: IndexPath): (r: Option<SettingsItem>)
      reads viewModel, viewModel.model
      requires p.item < viewModel.model.Count()
      ensures r.None? <==> viewModel.FindAt(p).None?
      ensures r.Some? ==> r.value.title == viewModel.FindAt(p).value.title && r.value.subtitle.None?
      ensures r.Some? ==> (r.value.isSelected == Some(true) <==> viewModel.selected == Some(r.value.title))
    {
      var category := viewModel.FindAt(p);
      CategoryRow(if category.Some? then Some(category.value.title) else None, viewModel.selected)
    }
  }
}
