/**
 * A shared note on the notes wall: whether its content is a stored file,
 * the file name and download id read back from the `FILE:` prefix, and the
 * icon chosen by format.
 */
module PostApunte {
  import opened Common
  import opened Strings
  import Social

  const Prefijo: string := "FILE:"

  /** `apunte.contenido?.startsWith("FILE:")`: a missing content is not a file. */
  predicate EsArchivo(contenido: Option<string>)
  {
    contenido.Some? && StartsWith(contenido.value, Prefijo)
  }

  /** The index of the first occurrence of `p` in `s`. */
  function IndiceDe(s: string, p: string): (r: Option<nat>)
    ensures r.Some? ==> r.value + |p| <= |s| && s[r.value..r.value + |p|] == p
    ensures StartsWith(s, p) ==> r == Some(0)
  {
    if StartsWith(s, p) then Some(0)
    else if s == [] then None
    else
      var r := IndiceDe(s[1..], p);
      if r.None? then None else Some(r.value + 1)
  }

  /** JS `s.replace(p, q)` with a string pattern: only the first occurrence is replaced. */
  function Reemplazar(s: string, p: string, q: string): string
  {
    match IndiceDe(s, p)
    case None => s
    case Some(i) => s[..i] + q + s[i + |p|..]
  }

  /** `nombreArchivo`: the content after the prefix for a file, `""` otherwise. */
  function NombreArchivo(contenido: Option<string>): string
  {
    if EsArchivo(contenido) then Reemplazar(contenido.value, Prefijo, "") else ""
  }

  /** The download button's `fileId`: `apunte.contenido.replace("FILE:", "")`. */
  function IdDescarga(contenido: string): string
  {
    Reemplazar(contenido, Prefijo, "")
  }

  /**
   * For a file, the name shown and the download id are both the content
   * with its prefix cut off; any other content shows no name.
   */
  lemma NombreTrasPrefijo(contenido: Option<string>)
    ensures EsArchivo(contenido) ==> NombreArchivo(contenido) == contenido.value[|Prefijo|..]
    ensures EsArchivo(contenido) ==> IdDescarga(contenido.value) == NombreArchivo(contenido)
    ensures !EsArchivo(contenido) ==> NombreArchivo(contenido) == ""
  {
    if EsArchivo(contenido) {
      assert contenido.value[..0] + "" + contenido.value[0 + |Prefijo|..] == contenido.value[|Prefijo|..];
    }
  }

  /** `"FILE:" + name` reads back as a file called `name`. */
  lemma IdaYVuelta(nombre: string)
    ensures EsArchivo(Some(Prefijo + nombre))
    ensures NombreArchivo(Some(Prefijo + nombre)) == nombre
  {
    assert (Prefijo + nombre)[..|Prefijo|] == Prefijo;
    NombreTrasPrefijo(Some(Prefijo + nombre));
    assert (Prefijo + nombre)[|Prefijo|..] == nombre;
  }

  /**
   * What the upload route stores reads back on the wall: an uploaded file
   * shows as the file `<id>.<format>`, which is also what the download asks
   * for; a text note shows as a file only if its own text starts with the
   * prefix.
   */
  lemma ContenidoDelServidor(data: Social.ApunteForm, archivo: Option<string>, apunteId: string)
    ensures archivo.Some? ==> EsArchivo(Social.ContenidoGuardado(data, archivo, apunteId))
    ensures archivo.Some? ==>
      NombreArchivo(Social.ContenidoGuardado(data, archivo, apunteId)) == apunteId + "." + Social.Formato(archivo)
    ensures archivo.Some? ==>
      IdDescarga(Social.ContenidoGuardado(data, archivo, apunteId).value) == apunteId + "." + Social.Formato(archivo)
    ensures archivo.None? ==> (EsArchivo(Social.ContenidoGuardado(data, archivo, apunteId)) <==> EsArchivo(data.contenido))
  {
    if archivo.Some? {
      var n := apunteId + "." + Social.Formato(archivo);
      assert "FILE:" + apunteId + "." + Social.Formato(archivo) == Prefijo + n;
      IdaYVuelta(n);
      NombreTrasPrefijo(Some(Prefijo + n));
    }
  }

  /** A text note whose own text starts with the prefix is drawn as a file card. */
  lemma TextoComoArchivo(data: Social.ApunteForm, apunteId: string, nombre: string)
    requires data.contenido == Some(Prefijo + nombre)
    ensures EsArchivo(Social.ContenidoGuardado(data, None, apunteId))
    ensures NombreArchivo(Social.ContenidoGuardado(data, None, apunteId)) == nombre
  {
    assert Social.ContenidoGuardado(data, None, apunteId) == data.contenido;
    IdaYVuelta(nombre);
  }

  datatype Icono = Pdf | Documento | Planilla | Codigo

  /** `getFileIcon(formato)`: the lower-cased format picks the icon; a missing one gets the default. */
  function IconoDe(formato: Option<string>): Icono
  {
    if formato.None? then Codigo
    else
      var f := Lower(formato.value);
      if f == "pdf" then Pdf
      else if f == "doc" || f == "docx" then Documento
      else if f == "xls" || f == "xlsx" then Planilla
      else Codigo
  }

  /** The icon ignores case, and any format other than the five named gets the default. */
  lemma IconoSinMayusculas(formato: string)
    ensures IconoDe(Some(formato)) == IconoDe(Some(Lower(formato)))
    ensures IconoDe(Some(formato)) == Codigo <==> Lower(formato) !in {"pdf", "doc", "docx", "xls", "xlsx"}
  {
    LowerIdempotent(formato);
  }

  /** `PDF`, `Docx` and `XLS` get the PDF, document and spreadsheet icons; the text format and none get the default. */
  lemma IconosEjemplo()
    ensures IconoDe(Some("PDF")) == Pdf && IconoDe(Some("Docx")) == Documento && IconoDe(Some("XLS")) == Planilla
    ensures IconoDe(Some("texto")) == Codigo && IconoDe(None) == Codigo
  {
    LowerPdf();
    LowerDocx();
    LowerXls();
    LowerTexto();
  }

  lemma LowerPdf()
    ensures Lower("PDF") == "pdf"
  {
    assert Lower("F") == "f";
    assert Lower("DF") == "df";
  }

  lemma LowerDocx()
    ensures Lower("Docx") == "docx"
  {
    assert Lower("x") == "x";
    assert Lower("cx") == "cx";
    assert Lower("ocx") == "ocx";
  }

  lemma LowerXls()
    ensures Lower("XLS") == "xls"
  {
    assert Lower("S") == "s";
    assert Lower("LS") == "ls";
  }

  lemma LowerTexto()
    ensures Lower("texto") == "texto"
  {
    assert Lower("o") == "o";
    assert Lower("to") == "to";
    assert Lower("xto") == "xto";
    assert Lower("exto") == "exto";
  }
}
