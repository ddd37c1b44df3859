/**
 * Filter-option lookups: the category and name DTOs, their domain records
 * (domain/model/Category.kt, Name.kt) and the mappings of
 * data/model/DataMappingExtensions.kt.
 */
module Lookups {
  import opened Wrappers

  datatype CategoryDto = CategoryDto(
    idCategory: string,
    strCategory: string,
    strCategoryThumb: Option<string>,
    strCategoryDescription: Option<string>)

  /** One entry of the ingredient or area list; the API fills one of the two fields. */
  datatype NameDto = NameDto(strIngredient: Option<string>, strArea: Option<string>)

  /** The category endpoint's body. */
  datatype CategoryListDto = CategoryListDto(categories: seq<CategoryDto>)

  /** The ingredient and area endpoints' body (the JSON key is "meals"). */
  datatype NameListDto = NameListDto(names: Option<seq<NameDto>>)

  datatype Category = Category(id: string, name: string, thumbUrl: Option<string>, description: Option<string>)

  /** A filter option; `kind` is the Kotlin field `type` ("Ingredient" or "Area"). */
  datatype Name = Name(name: string, kind: string)

  /** `CategoryDto.toDomain`. */
  function ToDomain(dto: CategoryDto): (c: Category)
    ensures c.id == dto.idCategory && c.name == dto.strCategory
    ensures c.thumbUrl == dto.strCategoryThumb && c.description == dto.strCategoryDescription
  {
    Category(dto.idCategory, dto.strCategory, dto.strCategoryThumb, dto.strCategoryDescription)
  }

  /** The category mapping renames fields and loses nothing: distinct DTOs give distinct categories. */
  lemma ToDomainInjective(a: CategoryDto, b: CategoryDto)
    ensures ToDomain(a) == ToDomain(b) <==> a == b
  {
  }

  /** `NameDto.toDomainName(type)`: `strIngredient ?: strArea ?: ""`, tagged with `kind`. */
  function ToDomainName(dto: NameDto, kind: string): (n: Name)
    ensures n.kind == kind
    ensures dto.strIngredient.Some? ==> n.name == dto.strIngredient.value
    ensures dto.strIngredient.None? && dto.strArea.Some? ==> n.name == dto.strArea.value
    ensures dto.strIngredient.None? && dto.strArea.None? ==> n.name == ""
  {
    Name(dto.strIngredient.GetOr(dto.strArea.GetOr("")), kind)
  }
}
